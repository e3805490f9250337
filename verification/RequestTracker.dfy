/** The pending request table (`include/sero/service/request_tracker.hpp`). */
module RequestTracker {
  import opened Words

  /** Return codes of section 2.4 of the protocol, as they travel in one byte. */
  const E_OK: u8 := 0
  const E_NOT_OK: u8 := 1
  const E_TIMEOUT: u8 := 6

  /** `callback` stands for the function pointer together with its user context. */
  datatype PendingEntry = PendingEntry(
    requestId: u32, serviceId: u16, methodId: u16, deadlineMs: u32, callback: Option<nat>, active: bool)

  const FREE := PendingEntry(0, 0, 0, 0, None, false)

  /** One request leaving the table; the callback runs when there is one. */
  datatype Completion = Completion(entry: PendingEntry, rc: u8, payload: Bytes)

  datatype Requests = Requests(entries: seq<PendingEntry>, next: u32)

  // ----------------------------------------------------------------- specification

  function ActiveIds(entries: seq<PendingEntry>): set<u32> {
    if entries == [] then {}
    else
      var last := entries[|entries| - 1];
      ActiveIds(entries[..|entries| - 1]) + (if last.active then {last.requestId} else {})
  }

  function FreeSlot(entries: seq<PendingEntry>): (i: nat)
    ensures i <= |entries|
    ensures i < |entries| ==> !entries[i].active
    ensures forall k :: 0 <= k < i ==> entries[k].active
  {
    if entries == [] || !entries[0].active then 0 else 1 + FreeSlot(entries[1..])
  }

  /** `++rid` on a `uint32_t`. */
  function Next(id: u32): u32 {
    Wrap32(id + 1)
  }

  /** The bounded search for an identifier, at most `attempts` steps. */
  function Probe(taken: set<u32>, rid: u32, attempts: nat): u32
    decreases attempts
  {
    if attempts == 0 || rid !in taken then rid else Probe(taken, Next(rid), attempts - 1)
  }

  function Deadline(timeoutMs: u32, defaultMs: u32, now: u32): u32 {
    Wrap32(now + (if timeoutMs > 0 then timeoutMs else defaultMs))
  }

  function AllocateIn(t: Requests, entry: PendingEntry): (Requests, Option<u32>) {
    var slot := FreeSlot(t.entries);
    if slot == |t.entries| then (t, None)
    else
      var rid := Probe(ActiveIds(t.entries), t.next, |t.entries|);
      (Requests(t.entries[slot := entry.(requestId := rid, active := true)], Next(rid)), Some(rid))
  }

  /** The first slot that holds `id`, or the table size. */
  function SlotOf(entries: seq<PendingEntry>, id: u32): (i: nat)
    ensures i <= |entries|
    ensures i < |entries| ==> entries[i].active && entries[i].requestId == id
    ensures forall k :: 0 <= k < i ==> !(entries[k].active && entries[k].requestId == id)
  {
    if entries == [] || (entries[0].active && entries[0].requestId == id) then 0
    else 1 + SlotOf(entries[1..], id)
  }

  function CompleteIn(t: Requests, id: u32, rc: u8, payload: Bytes): (Requests, seq<Completion>) {
    var slot := SlotOf(t.entries, id);
    if slot == |t.entries| then (t, [])
    else (t.(entries := t.entries[slot := FREE]), [Completion(t.entries[slot], rc, payload)])
  }

  predicate Expired(e: PendingEntry, now: u32) {
    e.active && TimeAfter(now, e.deadlineMs)
  }

  function Kept(entries: seq<PendingEntry>, now: u32): (r: seq<PendingEntry>)
    ensures |r| == |entries|
  {
    seq(|entries|, i requires 0 <= i < |entries| => if Expired(entries[i], now) then FREE else entries[i])
  }

  function TimedOut(entries: seq<PendingEntry>, now: u32): seq<Completion> {
    if entries == [] then []
    else
      var last := entries[|entries| - 1];
      TimedOut(entries[..|entries| - 1], now) + (if Expired(last, now) then [Completion(last, E_TIMEOUT, [])] else [])
  }

  function EvictFrom(t: Requests, now: u32): (Requests, seq<Completion>) {
    (t.(entries := Kept(t.entries, now)), TimedOut(t.entries, now))
  }

  // ------------------------------------------------------------------- the object

  class RequestTracker {
    const entries: array<PendingEntry>
    var nextRequestId: u32

    ghost function Table(): Requests
      reads this, entries
    {
      Requests(entries[..], nextRequestId)
    }

    constructor (maxPendingRequests: nat)
      ensures Table() == Requests(seq(maxPendingRequests, _ => FREE), 1)
      ensures fresh(entries)
    {
      entries := new PendingEntry[maxPendingRequests](_ => FREE);
      nextRequestId := 1;
      new;
      assert entries[..] == seq(maxPendingRequests, _ => FREE);
    }

    method Allocate(serviceId: u16, methodId: u16, timeoutMs: u32, defaultMs: u32, now: u32, callback: Option<nat>)
      returns (rid: Option<u32>)
      modifies this, entries
      ensures var entry := PendingEntry(0, serviceId, methodId, Deadline(timeoutMs, defaultMs, now), callback, true);
        (Table(), rid) == AllocateIn(old(Table()), entry)
    {
      ghost var before := entries[..];
      for i := 0 to entries.Length
        invariant entries[..] == before && nextRequestId == old(nextRequestId)
        invariant forall k :: 0 <= k < i ==> entries[k].active
      {
        if !entries[i].active {
          FreeSlotIs(before, i);
          var id := nextRequestId;
          var attempt := 0;
          ghost var ids := ActiveIds(before);
          while attempt < entries.Length
            invariant attempt <= entries.Length && entries[..] == before && nextRequestId == old(nextRequestId)
            invariant Probe(ids, id, entries.Length - attempt) == Probe(ids, nextRequestId, entries.Length)
          {
            var collision := IdInUse(id);
            if !collision {
              break;
            }
            id := Next(id);
            attempt := attempt + 1;
          }
          assert id == Probe(ids, nextRequestId, entries.Length);
          nextRequestId := Next(id);
          entries[i] := PendingEntry(id, serviceId, methodId, Deadline(timeoutMs, defaultMs, now), callback, true);
          assert entries[..] == before[i := entries[i]];
          return Some(id);
        }
      }
      FreeSlotIs(before, entries.Length);
      return None;
    }

    /** The innermost loop of `Allocate`. */
    method IdInUse(id: u32) returns (collision: bool)
      ensures collision <==> id in ActiveIds(entries[..])
    {
      for j := 0 to entries.Length
        invariant id !in ActiveIds(entries[..j])
      {
        assert entries[..j + 1][..j] == entries[..j];
        if entries[j].active && entries[j].requestId == id {
          ActiveIdsHas(entries[..], j);
          return true;
        }
      }
      assert entries[..entries.Length] == entries[..];
      return false;
    }

    /** Frees the slot of a pending request and reports it for its callback. */
    method Complete(id: u32, rc: u8, payload: Bytes) returns (done: seq<Completion>)
      modifies entries
      ensures (Table(), done) == CompleteIn(old(Table()), id, rc, payload)
    {
      for i := 0 to entries.Length
        invariant entries[..] == old(entries[..])
        invariant forall k :: 0 <= k < i ==> !(entries[k].active && entries[k].requestId == id)
      {
        if entries[i].active && entries[i].requestId == id {
          SlotOfIs(entries[..], id, i);
          done := [Completion(entries[i], rc, payload)];
          entries[i] := FREE;
          return;
        }
      }
      SlotOfIs(entries[..], id, entries.Length);
      return [];
    }

    method EvictExpired(now: u32) returns (done: seq<Completion>)
      modifies entries
      ensures (Table(), done) == EvictFrom(old(Table()), now)
    {
      done := [];
      for i := 0 to entries.Length
        invariant forall k :: 0 <= k < i ==> entries[k] == Kept(old(entries[..]), now)[k]
        invariant forall k :: i <= k < entries.Length ==> entries[k] == old(entries[..])[k]
        invariant done == TimedOut(old(entries[..])[..i], now)
      {
        assert old(entries[..])[..i + 1][..i] == old(entries[..])[..i];
        if Expired(entries[i], now) {
          done := done + [Completion(entries[i], E_TIMEOUT, [])];
          entries[i] := FREE;
        }
      }
      assert old(entries[..])[..entries.Length] == old(entries[..]);
      assert entries[..] == Kept(old(entries[..]), now);
    }

    method ActiveCount() returns (n: nat)
      ensures n == |ActiveSlots(entries[..])|
    {
      n := 0;
      for i := 0 to entries.Length
        invariant n == |ActiveSlots(entries[..i])|
      {
        ActiveSlotsSnoc(entries[..i], entries[i]);
        assert entries[..i + 1] == entries[..i] + [entries[i]];
        if entries[i].active {
          n := n + 1;
        }
      }
      assert entries[..entries.Length] == entries[..];
    }
  }

  ghost function ActiveSlots(entries: seq<PendingEntry>): set<nat> {
    set i: nat | i < |entries| && entries[i].active
  }

  lemma ActiveSlotsSnoc(entries: seq<PendingEntry>, e: PendingEntry)
    ensures |ActiveSlots(entries + [e])| == |ActiveSlots(entries)| + if e.active then 1 else 0
  {
    assert ActiveSlots(entries + [e]) == ActiveSlots(entries) + if e.active then {|entries|} else {};
  }

  lemma FreeSlotIs(entries: seq<PendingEntry>, i: nat)
    requires i <= |entries| && (i < |entries| ==> !entries[i].active)
    requires forall k :: 0 <= k < i ==> entries[k].active
    ensures FreeSlot(entries) == i
  {
  }

  lemma SlotOfIs(entries: seq<PendingEntry>, id: u32, i: nat)
    requires i <= |entries| && (i < |entries| ==> entries[i].active && entries[i].requestId == id)
    requires forall k :: 0 <= k < i ==> !(entries[k].active && entries[k].requestId == id)
    ensures SlotOf(entries, id) == i
  {
  }

  lemma {:induction false} ActiveIdsHas(entries: seq<PendingEntry>, i: nat)
    requires i < |entries| && entries[i].active
    ensures entries[i].requestId in ActiveIds(entries)
    decreases |entries|
  {
    if i < |entries| - 1 {
      ActiveIdsHas(entries[..|entries| - 1], i);
    }
  }
}
