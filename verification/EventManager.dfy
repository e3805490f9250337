/** Event subscriber tables (`include/sero/service/event_manager.hpp`). */
module EventManager {
  import opened Words
  import opened Tables

  /** The two results `subscribe` can have. */
  datatype SubscribeResult = Accepted | Rejected

  datatype Subscriber = Subscriber(clientId: u16, addr: Address, expiryMs: u32)

  /** One event; `subs` are its first `sub_count` subscribers. */
  datatype EventSlot = EventSlot(serviceId: u16, eventId: u16, active: bool, subs: seq<Subscriber>)

  datatype Limits = Limits(maxEvents: nat, maxSubscribers: nat, defaultTtl: u16)

  // ----------------------------------------------------------------- specification

  predicate IsEvent(e: EventSlot, sid: u16, eid: u16) {
    e.active && e.serviceId == sid && e.eventId == eid
  }

  function EventIndex(events: seq<EventSlot>, sid: u16, eid: u16): (i: nat)
    ensures i <= |events|
    ensures i < |events| ==> IsEvent(events[i], sid, eid)
    ensures forall k :: 0 <= k < i ==> !IsEvent(events[k], sid, eid)
  {
    if events == [] || IsEvent(events[0], sid, eid) then 0 else 1 + EventIndex(events[1..], sid, eid)
  }

  function SubIndex(subs: seq<Subscriber>, client: u16): (i: nat)
    ensures i <= |subs|
    ensures i < |subs| ==> subs[i].clientId == client
    ensures forall k :: 0 <= k < i ==> subs[k].clientId != client
  {
    if subs == [] || subs[0].clientId == client then 0 else 1 + SubIndex(subs[1..], client)
  }

  function Register(events: seq<EventSlot>, limits: Limits, sid: u16, eid: u16): (seq<EventSlot>, bool) {
    if EventIndex(events, sid, eid) < |events| then (events, true)
    else if |events| >= limits.maxEvents then (events, false)
    else (events + [EventSlot(sid, eid, true, [])], true)
  }

  /** The lease granted for a requested time to live: the default when it is zero. */
  function GrantedTtl(ttl: u16, limits: Limits): u16 {
    if ttl > 0 then ttl else limits.defaultTtl
  }

  function Expiry(ttl: u16, limits: Limits, now: u32): u32 {
    Wrap32(now + 1000 * GrantedTtl(ttl, limits))
  }

  function Enter(subs: seq<Subscriber>, limits: Limits, s: Subscriber): (seq<Subscriber>, SubscribeResult) {
    var i := SubIndex(subs, s.clientId);
    if i < |subs| then (subs[i := s], Accepted)
    else if |subs| >= limits.maxSubscribers then (subs, Rejected)
    else (subs + [s], Accepted)
  }

  function Subscribe(events: seq<EventSlot>, limits: Limits, sid: u16, eid: u16, client: u16, addr: Address,
                     ttl: u16, now: u32): (seq<EventSlot>, SubscribeResult) {
    var i := EventIndex(events, sid, eid);
    if i == |events| then (events, Rejected)
    else
      var (subs, r) := Enter(events[i].subs, limits, Subscriber(client, addr, Expiry(ttl, limits, now)));
      (events[i := events[i].(subs := subs)], r)
  }

  function Leave(subs: seq<Subscriber>, client: u16): seq<Subscriber> {
    var i := SubIndex(subs, client);
    if i < |subs| then SwapRemove(subs, i) else subs
  }

  function Unsubscribe(events: seq<EventSlot>, sid: u16, eid: u16, client: u16): seq<EventSlot> {
    var i := EventIndex(events, sid, eid);
    if i == |events| then events else events[i := events[i].(subs := Leave(events[i].subs, client))]
  }

  /** The compacting loop, from position `i` on: the entry moved into a freed place is
      looked at next. */
  function EvictSubs(subs: seq<Subscriber>, i: nat, now: u32): seq<Subscriber>
    requires i <= |subs|
    decreases |subs| - i
  {
    if i == |subs| then subs
    else if TimeAfter(now, subs[i].expiryMs) then EvictSubs(SwapRemove(subs, i), i, now)
    else EvictSubs(subs, i + 1, now)
  }

  function EvictEvent(e: EventSlot, now: u32): EventSlot {
    if e.active then e.(subs := EvictSubs(e.subs, 0, now)) else e
  }

  function Evict(events: seq<EventSlot>, now: u32): (r: seq<EventSlot>)
    ensures |r| == |events|
  {
    seq(|events|, i requires 0 <= i < |events| => EvictEvent(events[i], now))
  }

  function SubsOf(events: seq<EventSlot>, sid: u16, eid: u16): seq<Subscriber> {
    var i := EventIndex(events, sid, eid);
    if i < |events| then events[i].subs else []
  }

  // ------------------------------------------------------------------- the object

  class EventManager {
    const limits: Limits
    const events: array<EventSlot>
    var eventCount: nat

    ghost predicate Valid()
      reads this
    {
      eventCount <= events.Length == limits.maxEvents
    }

    ghost function Events(): seq<EventSlot>
      requires Valid()
      reads this, events
    {
      events[..eventCount]
    }

    constructor (limits: Limits)
      ensures Valid() && Events() == [] && this.limits == limits && fresh(events)
    {
      this.limits := limits;
      events := new EventSlot[limits.maxEvents](_ => EventSlot(0, 0, false, []));
      eventCount := 0;
    }

    method FindEvent(sid: u16, eid: u16) returns (i: nat)
      requires Valid()
      ensures i == EventIndex(Events(), sid, eid)
    {
      i := 0;
      while i < eventCount
        invariant i <= eventCount && forall k :: 0 <= k < i ==> !IsEvent(events[k], sid, eid)
      {
        if IsEvent(events[i], sid, eid) {
          break;
        }
        i := i + 1;
      }
      EventIndexIs(Events(), sid, eid, i);
    }

    method RegisterEvent(sid: u16, eid: u16) returns (ok: bool)
      requires Valid()
      modifies this`eventCount, events
      ensures Valid() && (Events(), ok) == Register(old(Events()), limits, sid, eid)
    {
      var i := FindEvent(sid, eid);
      if i < eventCount {
        return true;
      }
      if eventCount >= events.Length {
        return false;
      }
      events[eventCount] := EventSlot(sid, eid, true, []);
      eventCount := eventCount + 1;
      assert Events() == old(Events()) + [EventSlot(sid, eid, true, [])];
      return true;
    }

    /** Enters or renews one subscriber. */
    method SubscribeClient(sid: u16, eid: u16, client: u16, addr: Address, ttl: u16, now: u32)
        returns (r: SubscribeResult)
      requires Valid()
      modifies events
      ensures Valid() && (Events(), r) == Subscribe(old(Events()), limits, sid, eid, client, addr, ttl, now)
    {
      var e := FindEvent(sid, eid);
      if e == eventCount {
        return Rejected;
      }
      var expiry := Expiry(ttl, limits, now);
      var subs := events[e].subs;
      for i := 0 to |subs|
        invariant events[..] == old(events[..])
        invariant forall k :: 0 <= k < i ==> subs[k].clientId != client
      {
        if subs[i].clientId == client {
          SubIndexIs(subs, client, i);
          events[e] := events[e].(subs := subs[i := Subscriber(client, addr, expiry)]);
          return Accepted;
        }
      }
      SubIndexIs(subs, client, |subs|);
      if |subs| >= limits.maxSubscribers {
        assert Events()[e := Events()[e].(subs := subs)] == Events();
        return Rejected;
      }
      events[e] := events[e].(subs := subs + [Subscriber(client, addr, expiry)]);
      return Accepted;
    }

    method UnsubscribeClient(sid: u16, eid: u16, client: u16)
      requires Valid()
      modifies events
      ensures Valid() && Events() == Unsubscribe(old(Events()), sid, eid, client)
    {
      var e := FindEvent(sid, eid);
      if e == eventCount {
        return;
      }
      var subs := events[e].subs;
      for i := 0 to |subs|
        invariant events[..] == old(events[..])
        invariant forall k :: 0 <= k < i ==> subs[k].clientId != client
      {
        if subs[i].clientId == client {
          SubIndexIs(subs, client, i);
          events[e] := events[e].(subs := SwapRemove(subs, i));
          return;
        }
      }
      SubIndexIs(subs, client, |subs|);
      assert Events()[e := Events()[e].(subs := subs)] == Events();
    }

    method EvictExpired(now: u32)
      requires Valid()
      modifies events
      ensures Valid() && Events() == Evict(old(Events()), now)
    {
      for e := 0 to eventCount
        invariant forall k :: 0 <= k < e ==> events[k] == EvictEvent(old(events[..])[k], now)
        invariant forall k :: e <= k < events.Length ==> events[k] == old(events[..])[k]
      {
        if events[e].active {
          var i := 0;
          while i < |events[e].subs|
            invariant i <= |events[e].subs| && events[e].active
            invariant EvictEvent(old(events[..])[e], now) == events[e].(subs := EvictSubs(events[e].subs, i, now))
            invariant forall k :: 0 <= k < e ==> events[k] == EvictEvent(old(events[..])[k], now)
            invariant forall k :: e < k < events.Length ==> events[k] == old(events[..])[k]
            decreases |events[e].subs| - i
          {
            if TimeAfter(now, events[e].subs[i].expiryMs) {
              events[e] := events[e].(subs := SwapRemove(events[e].subs, i));
            } else {
              i := i + 1;
            }
          }
        }
      }
      assert Events() == Evict(old(Events()), now);
    }

    /** The subscribers a notification goes to, in table order. */
    method Notify(sid: u16, eid: u16) returns (sent: seq<(Address, u16)>)
      requires Valid()
      ensures |sent| == |SubsOf(Events(), sid, eid)|
      ensures forall i :: 0 <= i < |sent| ==>
        sent[i] == (SubsOf(Events(), sid, eid)[i].addr, SubsOf(Events(), sid, eid)[i].clientId)
    {
      sent := [];
      var e := FindEvent(sid, eid);
      if e < eventCount {
        var subs := events[e].subs;
        for i := 0 to |subs|
          invariant |sent| == i
          invariant forall k :: 0 <= k < i ==> sent[k] == (subs[k].addr, subs[k].clientId)
        {
          sent := sent + [(subs[i].addr, subs[i].clientId)];
        }
      }
    }

    /** `get_granted_ttl`: compares wrapped times without the signed difference. */
    method RemainingTtl(sid: u16, eid: u16, client: u16, now: u32) returns (seconds: u16)
      requires Valid()
      ensures seconds == match LeaseOf(SubsOf(Events(), sid, eid), client)
                         case None => 0
                         case Some(s) => RemainingSeconds(s.expiryMs, now)
    {
      var e := FindEvent(sid, eid);
      if e == eventCount {
        return 0;
      }
      var subs := events[e].subs;
      for i := 0 to |subs|
        invariant forall k :: 0 <= k < i ==> subs[k].clientId != client
      {
        if subs[i].clientId == client {
          SubIndexIs(subs, client, i);
          return RemainingSeconds(subs[i].expiryMs, now);
        }
      }
      SubIndexIs(subs, client, |subs|);
      return 0;
    }
  }

  lemma EventIndexIs(events: seq<EventSlot>, sid: u16, eid: u16, i: nat)
    requires i <= |events| && (i < |events| ==> IsEvent(events[i], sid, eid))
    requires forall k :: 0 <= k < i ==> !IsEvent(events[k], sid, eid)
    ensures EventIndex(events, sid, eid) == i
  {
  }

  lemma SubIndexIs(subs: seq<Subscriber>, client: u16, i: nat)
    requires i <= |subs| && (i < |subs| ==> subs[i].clientId == client)
    requires forall k :: 0 <= k < i ==> subs[k].clientId != client
    ensures SubIndex(subs, client) == i
  {
  }

  // --------------------------------------------- a subscriber table refines a map

  ghost predicate Distinct(subs: seq<Subscriber>) {
    forall i, j :: 0 <= i < j < |subs| ==> subs[i].clientId != subs[j].clientId
  }

  /** The map view: what the table holds for one client. */
  function LeaseOf(subs: seq<Subscriber>, client: u16): Option<Subscriber> {
    var i := SubIndex(subs, client);
    if i < |subs| then Some(subs[i]) else None
  }

  lemma LeaseAt(subs: seq<Subscriber>, i: nat)
    requires Distinct(subs) && i < |subs|
    ensures LeaseOf(subs, subs[i].clientId) == Some(subs[i])
  {
    SubIndexIs(subs, subs[i].clientId, i);
  }

  lemma EnterRefines(subs: seq<Subscriber>, limits: Limits, s: Subscriber)
    requires Distinct(subs) && |subs| <= limits.maxSubscribers
    ensures var (subs', r) := Enter(subs, limits, s);
      && Distinct(subs') && |subs'| <= limits.maxSubscribers
      && (forall c :: c != s.clientId ==> LeaseOf(subs', c) == LeaseOf(subs, c))
      && LeaseOf(subs', s.clientId) == (if r.Accepted? then Some(s) else None)
      && (r.Accepted? <==> LeaseOf(subs, s.clientId).Some? || |subs| < limits.maxSubscribers)
  {
    var (subs', r) := Enter(subs, limits, s);
    if r.Accepted? {
      LeaseAt(subs', SubIndex(subs, s.clientId));
    }
    forall c | c != s.clientId
      ensures LeaseOf(subs', c) == LeaseOf(subs, c)
    {
      var i := SubIndex(subs, c);
      if i < |subs| {
        LeaseAt(subs', i);
      } else {
        SubIndexIs(subs', c, |subs'|);
      }
    }
  }

  lemma RemoveRefines(subs: seq<Subscriber>, n: nat)
    requires Distinct(subs) && n < |subs|
    ensures var subs' := SwapRemove(subs, n);
      && Distinct(subs')
      && LeaseOf(subs', subs[n].clientId) == None
      && (forall c :: c != subs[n].clientId ==> LeaseOf(subs', c) == LeaseOf(subs, c))
  {
    var subs' := SwapRemove(subs, n);
    SubIndexIs(subs', subs[n].clientId, |subs'|);
    forall c | c != subs[n].clientId
      ensures LeaseOf(subs', c) == LeaseOf(subs, c)
    {
      var i := SubIndex(subs, c);
      if i < |subs| {
        LeaseAt(subs', if i == |subs| - 1 then n else i);
      } else {
        SubIndexIs(subs', c, |subs'|);
      }
    }
  }

  lemma LeaveRefines(subs: seq<Subscriber>, client: u16)
    requires Distinct(subs)
    ensures var subs' := Leave(subs, client);
      && Distinct(subs') && |subs'| <= |subs|
      && LeaseOf(subs', client) == None
      && (forall c :: c != client ==> LeaseOf(subs', c) == LeaseOf(subs, c))
  {
    var i := SubIndex(subs, client);
    if i < |subs| {
      RemoveRefines(subs, i);
    }
  }

  /** The compacting loop is a filter: it keeps exactly the leases that have not expired. */
  lemma {:induction false} EvictRefines(subs: seq<Subscriber>, i: nat, now: u32)
    requires Distinct(subs) && i <= |subs|
    requires forall k :: 0 <= k < i ==> !TimeAfter(now, subs[k].expiryMs)
    ensures var subs' := EvictSubs(subs, i, now);
      && Distinct(subs') && |subs'| <= |subs|
      && (forall c :: LeaseOf(subs', c) == Unexpired(LeaseOf(subs, c), now))
    decreases |subs| - i
  {
    hide TimeAfter;
    if i == |subs| {
      forall c
        ensures LeaseOf(subs, c) == Unexpired(LeaseOf(subs, c), now)
      {
      }
    } else if TimeAfter(now, subs[i].expiryMs) {
      RemoveRefines(subs, i);
      EvictRefines(SwapRemove(subs, i), i, now);
      LeaseAt(subs, i);
    } else {
      EvictRefines(subs, i + 1, now);
    }
  }

  function Unexpired(lease: Option<Subscriber>, now: u32): Option<Subscriber> {
    if lease.Some? && TimeAfter(now, lease.value.expiryMs) then None else lease
  }

  // -------------------------------------------------------- the table of all events

  /** No event twice, no client twice within one event, every event within its limit. */
  ghost predicate WellFormed(events: seq<EventSlot>, limits: Limits) {
    && (forall i, j :: 0 <= i < j < |events| ==>
        !(events[i].serviceId == events[j].serviceId && events[i].eventId == events[j].eventId))
    && (forall i :: 0 <= i < |events| ==> WellFormedEvent(events[i], limits))
  }

  ghost predicate WellFormedEvent(e: EventSlot, limits: Limits) {
    e.active && Distinct(e.subs) && |e.subs| <= limits.maxSubscribers
  }

  /** The lease a client holds on an event, if any. */
  function Lease(events: seq<EventSlot>, sid: u16, eid: u16, client: u16): Option<Subscriber> {
    LeaseOf(SubsOf(events, sid, eid), client)
  }

  /** The event is in the table. */
  ghost predicate Registered(events: seq<EventSlot>, sid: u16, eid: u16) {
    exists i :: 0 <= i < |events| && events[i].active && events[i].serviceId == sid && events[i].eventId == eid
  }

  /** The event is registered, and has the client already or room for it. */
  ghost predicate HasRoom(events: seq<EventSlot>, limits: Limits, sid: u16, eid: u16, client: u16) {
    && Registered(events, sid, eid)
    && (Lease(events, sid, eid, client).Some? || |SubsOf(events, sid, eid)| < limits.maxSubscribers)
  }

  /** Registering enters the event unless it is there or the table is full, and keeps every lease. */
  lemma RegisterKeeps(events: seq<EventSlot>, limits: Limits, sid: u16, eid: u16)
    requires WellFormed(events, limits)
    ensures var (events', ok) := Register(events, limits, sid, eid);
      && (ok <==> Registered(events', sid, eid))
      && (ok <==> Registered(events, sid, eid) || |events| < limits.maxEvents)
      && (Registered(events, sid, eid) || !ok ==> events' == events)
    ensures WellFormed(Register(events, limits, sid, eid).0, limits)
    ensures forall s, e, c :: Lease(Register(events, limits, sid, eid).0, s, e, c) == Lease(events, s, e, c)
  {
    var events' := Register(events, limits, sid, eid).0;
    if |events'| > |events| {
      assert events'[|events|] == EventSlot(sid, eid, true, []);
      forall i | 0 <= i < |events|
        ensures !(events[i].serviceId == sid && events[i].eventId == eid)
      {
        assert WellFormedEvent(events[i], limits) && !IsEvent(events[i], sid, eid);
      }
      assert WellFormedEvent(events'[|events|], limits);
      forall s, e, c
        ensures Lease(events', s, e, c) == Lease(events, s, e, c)
      {
        var i := EventIndex(events, s, e);
        if i < |events| {
          EventIndexIs(events', s, e, i);
        } else if s == sid && e == eid {
          EventIndexIs(events', s, e, |events|);
        } else {
          EventIndexIs(events', s, e, |events'|);
        }
      }
    }
  }

  /** Replacing the subscribers of one event leaves all other events alone. */
  lemma ReplaceSubs(events: seq<EventSlot>, limits: Limits, i: nat, subs: seq<Subscriber>)
    requires WellFormed(events, limits) && i < |events|
    requires Distinct(subs) && |subs| <= limits.maxSubscribers
    ensures var events' := events[i := events[i].(subs := subs)];
      && WellFormed(events', limits)
      && (forall s, e :: SubsOf(events', s, e) == if IsEvent(events[i], s, e) then subs else SubsOf(events, s, e))
  {
    var events' := events[i := events[i].(subs := subs)];
    assert WellFormedEvent(events[i], limits);
    forall s, e
      ensures SubsOf(events', s, e) == if IsEvent(events[i], s, e) then subs else SubsOf(events, s, e)
    {
      EventIndexIs(events', s, e, EventIndex(events, s, e));
      if IsEvent(events[i], s, e) {
        OneEvent(events, limits, s, e, i);
      }
    }
  }

  lemma OneEvent(events: seq<EventSlot>, limits: Limits, sid: u16, eid: u16, i: nat)
    requires WellFormed(events, limits) && i < |events| && IsEvent(events[i], sid, eid)
    ensures EventIndex(events, sid, eid) == i
  {
    EventIndexIs(events, sid, eid, i);
  }

  /** One subscription changes exactly one lease, and accepts whenever the client already
      holds one or there is room. */
  lemma SubscribeRefines(events: seq<EventSlot>, limits: Limits, sid: u16, eid: u16, client: u16, addr: Address,
                         ttl: u16, now: u32)
    requires WellFormed(events, limits)
    ensures var (events', r) := Subscribe(events, limits, sid, eid, client, addr, ttl, now);
      && WellFormed(events', limits)
      && (r.Accepted? <==> HasRoom(events, limits, sid, eid, client))
      && var end := Wrap32(now + 1000 * (if ttl > 0 then ttl else limits.defaultTtl));
      && (r.Accepted? ==> Lease(events', sid, eid, client) == Some(Subscriber(client, addr, end)))
      && (r.Rejected? ==> events' == events && Lease(events, sid, eid, client) == None)
      && (forall s: u16, e: u16, c: u16 :: !(s == sid && e == eid && c == client) ==>
          Lease(events', s, e, c) == Lease(events, s, e, c))
  {
    var i := EventIndex(events, sid, eid);
    if i < |events| {
      var s := Subscriber(client, addr, Expiry(ttl, limits, now));
      assert WellFormedEvent(events[i], limits);
      EnterRefines(events[i].subs, limits, s);
      ReplaceSubs(events, limits, i, Enter(events[i].subs, limits, s).0);
    }
  }

  lemma UnsubscribeRefines(events: seq<EventSlot>, limits: Limits, sid: u16, eid: u16, client: u16)
    requires WellFormed(events, limits)
    ensures var events' := Unsubscribe(events, sid, eid, client);
      && WellFormed(events', limits)
      && Lease(events', sid, eid, client) == None
      && (forall s: u16, e: u16, c: u16 :: !(s == sid && e == eid && c == client) ==>
          Lease(events', s, e, c) == Lease(events, s, e, c))
  {
    var i := EventIndex(events, sid, eid);
    if i < |events| {
      assert WellFormedEvent(events[i], limits);
      LeaveRefines(events[i].subs, client);
      ReplaceSubs(events, limits, i, Leave(events[i].subs, client));
    }
  }

  /** Eviction filters the leases of all events. */
  lemma EvictAllRefines(events: seq<EventSlot>, limits: Limits, now: u32)
    requires WellFormed(events, limits)
    ensures WellFormed(Evict(events, now), limits)
    ensures forall s, e, c :: Lease(Evict(events, now), s, e, c) == Unexpired(Lease(events, s, e, c), now)
  {
    hide EvictSubs;
    var events' := Evict(events, now);
    forall i | 0 <= i < |events|
      ensures WellFormedEvent(events'[i], limits)
    {
      assert WellFormedEvent(events[i], limits);
      EvictRefines(events[i].subs, 0, now);
    }
    forall s, e, c
      ensures Lease(events', s, e, c) == Unexpired(Lease(events, s, e, c), now)
    {
      var i := EventIndex(events, s, e);
      EventIndexIs(events', s, e, i);
      if i < |events| {
        EvictRefines(events[i].subs, 0, now);
      }
    }
  }

  /** With true expiry times within 2^31 ms of now, the leases that survive are exactly
      those whose true expiry has not passed. */
  lemma EvictByTrueTime(events: seq<EventSlot>, limits: Limits, sid: u16, eid: u16, client: u16, due: int, now: int)
    requires WellFormed(events, limits) && Lease(events, sid, eid, client).Some?
    requires Lease(events, sid, eid, client).value.expiryMs == Wrap32(due) && -TWO_31 <= now - due < TWO_31
    ensures Lease(Evict(events, Wrap32(now)), sid, eid, client)
         == if now > due then None else Lease(events, sid, eid, client)
  {
    hide Wrap32, TimeAfter, Evict, Lease;
    EvictAllRefines(events, limits, Wrap32(now));
    ClockComparison(now, due);
  }

  // ------------------------------------------------ the remaining time, across the wrap

  function RemainingSeconds(expiryMs: u32, now: u32): u16 {
    (if expiryMs > now then (expiryMs - now) / 1000 else 0) % TWO_16
  }

  /** The whole seconds a lease really has left. */
  function TrueRemaining(due: int, now: int): nat {
    if due > now then (due - now) / 1000 else 0
  }

  /** The numbers of the clock at which `get_granted_ttl` is right. A live lease: less than a
      second is left, or the clock does not wrap before the end. An ended lease that is not
      evicted yet: the clock has not wrapped since the end, or the difference it shows
      happens to vanish in 16 bits. */
  predicate ReportsTruly(due: int, now: int) {
    var end, clock := Wrap32(due), Wrap32(now);
    if due > now then due - now < 1000 || clock < end
    else end <= clock || (end - clock) / 1000 % TWO_16 == 0
  }

  /** `get_granted_ttl` reports the true remaining seconds, of a lease that runs or that has
      ended and is not evicted yet, exactly then. */
  lemma RemainingIsTrue(due: int, now: int)
    requires due - now <= 65535 * 1000
    ensures RemainingSeconds(Wrap32(due), Wrap32(now)) == TrueRemaining(due, now) <==> ReportsTruly(due, now)
  {
    if due > now {
      WrapDifference(due, now);
      if Wrap32(now) < Wrap32(due) {
        assert Wrap32(due) - Wrap32(now) == due - now;
      }
    }
  }

  /** What the table answers when one client has subscribed to one event at time `at`. */
  function SecondsAfterSubscribing(limits: Limits, ttl: u16, at: u32, now: u32): u16 {
    var events := Subscribe(Register([], limits, 1, 0x8001).0, limits, 1, 0x8001, 2, [3], ttl, at).0;
    match LeaseOf(SubsOf(events, 1, 0x8001), 2)
    case None => 0
    case Some(s) => RemainingSeconds(s.expiryMs, now)
  }

  /** A lease of 100 seconds taken 50 seconds before the clock wraps: nothing is left at once. */
  lemma RemainingHidden(limits: Limits)
    requires limits.maxEvents > 0 && limits.maxSubscribers > 0
    ensures SecondsAfterSubscribing(limits, 100, 4294917296, 4294917296) == 0
      && TrueRemaining(4294917296 + 100000, 4294917296) == 100
  {
    OneSubscriber(limits, 100, 4294917296);
  }

  /** A lease that ended 10 ms before the clock wrapped and is not evicted 15 ms later: almost
      ten hours are left. */
  lemma RemainingInvented(limits: Limits)
    requires limits.maxEvents > 0 && limits.maxSubscribers > 0
    ensures SecondsAfterSubscribing(limits, 1, 4294966286, 5) == 35127
      && TrueRemaining(4294966286 + 1000, TWO_32 + 5) == 0
  {
    OneSubscriber(limits, 1, 4294966286);
  }

  lemma OneSubscriber(limits: Limits, ttl: u16, at: u32)
    requires limits.maxEvents > 0 && limits.maxSubscribers > 0
    ensures var events := Subscribe(Register([], limits, 1, 0x8001).0, limits, 1, 0x8001, 2, [3], ttl, at).0;
      LeaseOf(SubsOf(events, 1, 0x8001), 2) == Some(Subscriber(2, [3], Expiry(ttl, limits, at)))
  {
    var none: seq<EventSlot>, nobody: seq<Subscriber> := [], [];
    var slot := EventSlot(1, 0x8001, true, nobody);
    assert EventIndex(none, 1, 0x8001) == 0 && Register(none, limits, 1, 0x8001).0 == none + [slot] == [slot];
    assert EventIndex([slot], 1, 0x8001) == 0;
    var s := Subscriber(2, [3], Expiry(ttl, limits, at));
    assert SubIndex(nobody, 2) == 0 && Enter(nobody, limits, s).0 == nobody + [s] == [s];
    var events := Subscribe([slot], limits, 1, 0x8001, 2, [3], ttl, at).0;
    assert events == [slot.(subs := [s])] && EventIndex(events, 1, 0x8001) == 0 && SubIndex([s], 2) == 0;
  }
}
