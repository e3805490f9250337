/** What the pending request table keeps over whole runs: fresh identifiers, one
completion per request, and timeouts judged by true time. */
module RequestRuns {
  import opened Words
  import opened RequestTracker

  // ------------------------------------------------------- the bounded identifier probe

  /** The `k` identifiers tried from `rid` on. */
  ghost function Tried(rid: u32, k: nat): set<u32>
    decreases k
  {
    if k == 0 then {} else {rid} + Tried(Next(rid), k - 1)
  }

  lemma Distance(rid: u32, id: u32)
    ensures id == rid ==> Wrap32(id - rid) == 0 && Wrap32(id - Next(rid)) == TWO_32 - 1
    ensures id != rid ==> Wrap32(id - rid) == Wrap32(id - Next(rid)) + 1
  {
  }

  lemma {:induction false} TriedMembers(rid: u32, k: nat, id: u32)
    requires k <= TWO_32
    ensures id in Tried(rid, k) <==> Wrap32(id - rid) < k
    decreases k
  {
    hide Wrap32;
    if k > 0 {
      TriedMembers(Next(rid), k - 1, id);
      Distance(rid, id);
    }
  }

  /** Up to 2^32 probes never repeat an identifier, across the wrap as well. */
  lemma {:induction false} TriedCount(rid: u32, k: nat)
    requires k <= TWO_32
    ensures |Tried(rid, k)| == k
    decreases k
  {
    hide Wrap32;
    if k > 0 {
      TriedCount(Next(rid), k - 1);
      TriedMembers(Next(rid), k - 1, rid);
      Distance(rid, rid);
    }
  }

  lemma {:induction false} ProbeResult(taken: set<u32>, rid: u32, attempts: nat) returns (k: nat)
    ensures k <= attempts && Probe(taken, rid, attempts) == Wrap32(rid + k)
    ensures Tried(rid, k) <= taken
    ensures k < attempts ==> Probe(taken, rid, attempts) !in taken
    decreases attempts
  {
    if attempts == 0 || rid !in taken {
      k := 0;
    } else {
      k := ProbeResult(taken, Next(rid), attempts - 1);
      WrapSum(rid + 1, k);
      k := k + 1;
    }
  }

  lemma {:induction false} FewActiveIds(entries: seq<PendingEntry>)
    ensures |ActiveIds(entries)| <= |ActiveSlots(entries)|
    decreases |entries|
  {
    if entries != [] {
      var n := |entries| - 1;
      FewActiveIds(entries[..n]);
      ActiveSlotsSnoc(entries[..n], entries[n]);
      assert entries == entries[..n] + [entries[n]];
    }
  }

  /** A table with a free slot has fewer active slots than slots. */
  lemma {:induction false} SomeSlotFree(entries: seq<PendingEntry>)
    requires FreeSlot(entries) < |entries|
    ensures |ActiveSlots(entries)| < |entries|
  {
    var i := FreeSlot(entries);
    SlotsWithout(entries, i);
  }

  lemma {:induction false} SlotsWithout(entries: seq<PendingEntry>, i: nat)
    requires i < |entries| && !entries[i].active
    ensures |ActiveSlots(entries)| <= |entries| - 1
    decreases |entries|
  {
    var n := |entries| - 1;
    ActiveSlotsSnoc(entries[..n], entries[n]);
    assert entries == entries[..n] + [entries[n]];
    if i < n {
      SlotsWithout(entries[..n], i);
    } else {
      AtMostAll(entries[..n]);
    }
  }

  lemma {:induction false} AtMostAll(entries: seq<PendingEntry>)
    ensures |ActiveSlots(entries)| <= |entries|
    decreases |entries|
  {
    if entries != [] {
      var n := |entries| - 1;
      AtMostAll(entries[..n]);
      ActiveSlotsSnoc(entries[..n], entries[n]);
      assert entries == entries[..n] + [entries[n]];
    }
  }

  /** Pigeonhole: with a slot free, the bounded probe ends on an identifier no active
      entry holds, after skipping fewer candidates than there are slots. */
  lemma FreshId(t: Requests) returns (k: nat)
    requires FreeSlot(t.entries) < |t.entries| <= TWO_32
    ensures Probe(ActiveIds(t.entries), t.next, |t.entries|) == Wrap32(t.next + k)
    ensures k < |t.entries|
    ensures Wrap32(t.next + k) !in ActiveIds(t.entries)
  {
    var n := |t.entries|;
    k := ProbeResult(ActiveIds(t.entries), t.next, n);
    TriedCount(t.next, k);
    SubsetSmaller(Tried(t.next, k), ActiveIds(t.entries));
    FewActiveIds(t.entries);
    SomeSlotFree(t.entries);
  }

  lemma {:induction false} SubsetSmaller<T>(a: set<T>, b: set<T>)
    requires a <= b
    ensures |a| <= |b|
    decreases |a|
  {
    if a != {} {
      var x :| x in a;
      SubsetSmaller(a - {x}, b - {x});
    }
  }

  // ------------------------------------------------------------------------- runs

  /** An operation on the table, at a true time. */
  datatype Op =
    | AllocateOp(serviceId: u16, methodId: u16, timeoutMs: u32, callback: Option<nat>)
    | CompleteOp(id: u32, rc: u8, payload: Bytes)
    | EvictOp

  datatype Timed = Timed(op: Op, at: nat)

  /** A successful allocation: the entry as stored, and its deadline in true time. */
  datatype Issue = Issue(entry: PendingEntry, due: nat)

  /** A completion and the allocation it answers. */
  datatype Done = Done(completion: Completion, issue: nat, at: nat, timeout: bool)

  /** The table together with its history: `owner[i]` is the allocation slot `i` holds. */
  datatype World = World(table: Requests, owner: seq<nat>, issues: seq<Issue>, done: seq<Done>, evictedAt: nat,
                         now: nat)

  ghost predicate Shape(w: World) {
    |w.owner| == |w.table.entries| && 0 < |w.table.entries| <= TWO_32
  }

  ghost function Effective(timeoutMs: u32, defaultMs: u32): nat {
    if timeoutMs > 0 then timeoutMs else defaultMs
  }

  ghost function TimeoutsOf(w: World, at: nat, n: nat): seq<Done>
    requires Shape(w) && n <= |w.owner|
  {
    if n == 0 then []
    else TimeoutsOf(w, at, n - 1) + (if Expired(w.table.entries[n - 1], Wrap32(at))
      then [Done(Completion(w.table.entries[n - 1], 6, []), w.owner[n - 1], at, true)] else [])
  }

  ghost function Step(w: World, e: Timed, defaultMs: u32): World
    requires Shape(w)
  {
    match e.op
    case AllocateOp(sid, mid, timeout, callback) =>
      var entry := PendingEntry(0, sid, mid, Deadline(timeout, defaultMs, Wrap32(e.at)), callback, true);
      var (t, rid) := AllocateIn(w.table, entry);
      var slot := FreeSlot(w.table.entries);
      if rid == None then w.(table := t, now := e.at)
      else w.(table := t, owner := w.owner[slot := |w.issues|], now := e.at,
              issues := w.issues + [Issue(t.entries[slot], e.at + Effective(timeout, defaultMs))])
    case CompleteOp(id, rc, payload) =>
      var (t, done) := CompleteIn(w.table, id, rc, payload);
      var slot := SlotOf(w.table.entries, id);
      if done == [] then w.(table := t, now := e.at)
      else w.(table := t, done := w.done + [Done(done[0], w.owner[slot], e.at, false)], now := e.at)
    case EvictOp =>
      var (t, _) := EvictFrom(w.table, Wrap32(e.at));
      w.(table := t, done := w.done + TimeoutsOf(w, e.at, |w.owner|), evictedAt := e.at, now := e.at)
  }

  lemma StepShape(w: World, e: Timed, defaultMs: u32)
    requires Shape(w)
    ensures Shape(Step(w, e, defaultMs))
  {
  }

  ghost function Run(w: World, run: seq<Timed>, defaultMs: u32): World
    requires Shape(w)
    decreases |run|
  {
    if run == [] then w
    else
      StepShape(w, run[0], defaultMs);
      Run(Step(w, run[0], defaultMs), run[1..], defaultMs)
  }

  ghost function Initial(slots: nat): World {
    World(Requests(seq(slots, _ => FREE), 1), seq(slots, _ => 0), [], [], 0, 0)
  }

  // ------------------------------------------------------------ identifier freshness

  /** Slot `i` holds the most recent allocation of its identifier. */
  ghost predicate HoldsLatest(w: World, i: nat)
    requires Shape(w) && i < |w.owner|
  {
    && w.owner[i] < |w.issues|
    && w.table.entries[i] == w.issues[w.owner[i]].entry
    && forall j :: w.owner[i] < j < |w.issues| ==> w.issues[j].entry.requestId != w.table.entries[i].requestId
  }

  ghost predicate IdInv(w: World) {
    && Shape(w)
    && (forall i :: 0 <= i < |w.owner| && w.table.entries[i].active ==> HoldsLatest(w, i))
  }

  lemma IdStep(w: World, e: Timed, defaultMs: u32)
    requires IdInv(w)
    ensures IdInv(Step(w, e, defaultMs))
  {
    var w' := Step(w, e, defaultMs);
    if e.op.AllocateOp? && |w'.issues| > |w.issues| {
      var k := FreshId(w.table);
      forall i | 0 <= i < |w.owner| && w'.table.entries[i].active
        ensures HoldsLatest(w', i)
      {
        if i != FreeSlot(w.table.entries) {
          assert HoldsLatest(w, i);
          ActiveIdsHas(w.table.entries, i);
        }
      }
    } else {
      forall i | 0 <= i < |w.owner| && w'.table.entries[i].active
        ensures HoldsLatest(w', i)
      {
        assert HoldsLatest(w, i);
      }
    }
  }

  /** The unbounded counter behind the issued identifiers: strictly increasing, and at
      most one table size per allocation. */
  ghost predicate Counters(issues: seq<Issue>, c: seq<nat>, slots: nat) {
    && |c| == |issues|
    && (forall i :: 0 <= i < |c| ==> issues[i].entry.requestId == Wrap32(c[i]))
    && (forall i :: 0 < i < |c| ==> c[i - 1] < c[i] <= c[i - 1] + slots)
  }

  ghost predicate CounterInv(w: World, c: seq<nat>, next: nat) {
    && Shape(w)
    && Counters(w.issues, c, |w.owner|)
    && w.table.next == Wrap32(next)
    && (c != [] ==> next == c[|c| - 1] + 1)
  }

  lemma CounterStep(w: World, e: Timed, defaultMs: u32, c: seq<nat>, next: nat)
    returns (c': seq<nat>, next': nat)
    requires CounterInv(w, c, next)
    ensures CounterInv(Step(w, e, defaultMs), c', next')
  {
    hide Wrap32, Probe, ActiveIds, Counters, Kept, TimeoutsOf, Deadline;
    c', next' := c, next;
    var w' := Step(w, e, defaultMs);
    if |w'.issues| > |w.issues| {
      var k := FreshId(w.table);
      WrapSum(next, k);
      WrapSum(next + k, 1);
      c', next' := c + [next + k], next + k + 1;
      OneMoreCounter(w.issues, w'.issues[|w.issues|], c, next + k, |w.owner|);
    }
  }

  lemma OneMoreCounter(issues: seq<Issue>, issue: Issue, c: seq<nat>, x: nat, slots: nat)
    requires Counters(issues, c, slots) && issue.entry.requestId == Wrap32(x)
    requires c != [] ==> c[|c| - 1] < x <= c[|c| - 1] + slots
    ensures Counters(issues + [issue], c + [x], slots)
  {
    hide Wrap32;
  }

  lemma {:induction false} CounterRun(w: World, run: seq<Timed>, defaultMs: u32, c: seq<nat>, next: nat)
    returns (c': seq<nat>, next': nat)
    requires CounterInv(w, c, next)
    ensures CounterInv(Run(w, run, defaultMs), c', next')
    decreases |run|
  {
    if run == [] {
      c', next' := c, next;
    } else {
      StepShape(w, run[0], defaultMs);
      c', next' := CounterStep(w, run[0], defaultMs, c, next);
      c', next' := CounterRun(Step(w, run[0], defaultMs), run[1..], defaultMs, c', next');
    }
  }

  lemma {:induction false} CounterGap(issues: seq<Issue>, c: seq<nat>, slots: nat, i: nat, j: nat)
    requires Counters(issues, c, slots) && i <= j < |c|
    ensures j - i <= c[j] - c[i] <= (j - i) * slots
    decreases j - i
  {
    if i < j {
      CounterGap(issues, c, slots, i, j - 1);
      assert (j - i) * slots == (j - 1 - i) * slots + slots;
    }
  }

  /** In every run, two allocations get the same identifier only if 2^32 identifiers fit
      between them: `j - i` allocations skip at most one table size each. */
  lemma IdRecurrence(slots: nat, run: seq<Timed>, defaultMs: u32, i: nat, j: nat)
    requires 0 < slots <= TWO_32
    requires i < j < |Run(Initial(slots), run, defaultMs).issues|
    requires Run(Initial(slots), run, defaultMs).issues[i].entry.requestId
          == Run(Initial(slots), run, defaultMs).issues[j].entry.requestId
    ensures (j - i) * slots >= TWO_32
  {
    hide Wrap32, Run;
    var w := Run(Initial(slots), run, defaultMs);
    InitialCounter(slots);
    var c, next := CounterRun(Initial(slots), run, defaultMs, [], 1);
    RunSlots(Initial(slots), run, defaultMs);
    CounterGap(w.issues, c, slots, i, j);
    SameWrap(c[i], c[j]);
  }

  lemma InitialCounter(slots: nat)
    requires 0 < slots <= TWO_32
    ensures CounterInv(Initial(slots), [], 1)
  {
  }

  lemma SameWrap(a: nat, b: nat)
    requires a < b && Wrap32(a) == Wrap32(b)
    ensures b - a >= TWO_32
  {
  }

  lemma {:induction false} RunSlots(w: World, run: seq<Timed>, defaultMs: u32)
    requires Shape(w)
    ensures Shape(Run(w, run, defaultMs)) && |Run(w, run, defaultMs).owner| == |w.owner|
    decreases |run|
  {
    if run != [] {
      StepShape(w, run[0], defaultMs);
      RunSlots(Step(w, run[0], defaultMs), run[1..], defaultMs);
    }
  }

  lemma {:induction false} IdRun(w: World, run: seq<Timed>, defaultMs: u32)
    requires IdInv(w)
    ensures IdInv(Run(w, run, defaultMs))
    decreases |run|
  {
    if run != [] {
      IdStep(w, run[0], defaultMs);
      IdRun(Step(w, run[0], defaultMs), run[1..], defaultMs);
    }
  }

  /** A late response to allocation `i` never completes another request: whatever entry
      `complete` finds under that identifier is allocation `i` itself, unless at least
      2^32 / slots allocations were made since. */
  lemma LateResponse(slots: nat, run: seq<Timed>, defaultMs: u32, i: nat, rc: u8, payload: Bytes)
    requires 0 < slots <= TWO_32
    requires i < |Run(Initial(slots), run, defaultMs).issues|
    ensures var w := Run(Initial(slots), run, defaultMs);
      var (_, done) := CompleteIn(w.table, w.issues[i].entry.requestId, rc, payload);
      done == [] || done == [Completion(w.issues[i].entry, rc, payload)] || (|w.issues| - 1 - i) * slots >= TWO_32
  {
    IdRun(Initial(slots), run, defaultMs);
    RunSlots(Initial(slots), run, defaultMs);
    var w := Run(Initial(slots), run, defaultMs);
    var slot := SlotOf(w.table.entries, w.issues[i].entry.requestId);
    if slot < |w.table.entries| {
      assert HoldsLatest(w, slot);
      var j := w.owner[slot];
      if i < j {
        IdRecurrence(slots, run, defaultMs, i, j);
        MulMonotone(j - i, |w.issues| - 1 - i, slots);
      }
    }
  }

  lemma MulMonotone(a: nat, b: nat, c: nat)
    requires a <= b
    ensures a * c <= b * c
  {
  }

  // ------------------------------------------------------------------ conservation

  ghost function One(b: bool): nat {
    if b then 1 else 0
  }

  /** How many slots still hold allocation `j`. */
  ghost function Holding(entries: seq<PendingEntry>, owner: seq<nat>, j: nat): nat
    requires |entries| == |owner|
  {
    if entries == [] then 0
    else
      var n := |entries| - 1;
      Holding(entries[..n], owner[..n], j) + One(entries[n].active && owner[n] == j)
  }

  /** How many completions answer allocation `j`. */
  ghost function Answers(done: seq<Done>, j: nat): nat {
    if done == [] then 0 else Answers(done[..|done| - 1], j) + One(done[|done| - 1].issue == j)
  }

  /** Allocation `j` is held by one slot or was answered once, and not both. */
  ghost predicate Balanced(w: World, j: nat)
    requires Shape(w)
  {
    Holding(w.table.entries, w.owner, j) + Answers(w.done, j) == One(j < |w.issues|)
  }

  ghost predicate Recorded(w: World, d: nat)
    requires d < |w.done|
  {
    w.done[d].issue < |w.issues| && w.done[d].completion.entry == w.issues[w.done[d].issue].entry
  }

  ghost predicate Conserved(w: World) {
    && IdInv(w)
    && (forall j: nat :: Balanced(w, j))
    && |w.issues| == |ActiveSlots(w.table.entries)| + |w.done|
    && (forall d :: 0 <= d < |w.done| ==> Recorded(w, d))
  }

  lemma {:induction false} HoldingUpdate(entries: seq<PendingEntry>, owner: seq<nat>, i: nat, e: PendingEntry, o: nat,
                                         j: nat)
    requires |entries| == |owner| && i < |entries|
    ensures Holding(entries[i := e], owner[i := o], j)
         == Holding(entries, owner, j) - One(entries[i].active && owner[i] == j) + One(e.active && o == j)
    decreases |entries|
  {
    hide One;
    var n := |entries| - 1;
    var entries', owner' := entries[i := e], owner[i := o];
    if i < n {
      HoldingUpdate(entries[..n], owner[..n], i, e, o, j);
      assert entries'[..n] == entries[..n][i := e] && owner'[..n] == owner[..n][i := o];
    } else {
      assert entries'[..n] == entries[..n] && owner'[..n] == owner[..n];
    }
  }

  lemma ActiveUpdate(entries: seq<PendingEntry>, i: nat, e: PendingEntry)
    requires i < |entries|
    ensures |ActiveSlots(entries[i := e])| == |ActiveSlots(entries)| - One(entries[i].active) + One(e.active)
  {
    var rest := ActiveSlots(entries) - {i};
    assert ActiveSlots(entries) == rest + (if entries[i].active then {i} else {});
    assert ActiveSlots(entries[i := e]) == rest + (if e.active then {i} else {});
  }

  lemma {:induction false} AnswersConcat(a: seq<Done>, b: seq<Done>, j: nat)
    ensures Answers(a + b, j) == Answers(a, j) + Answers(b, j)
    decreases |b|
  {
    if b == [] {
      assert a + b == a;
    } else {
      var n := |b| - 1;
      assert (a + b)[..|a + b| - 1] == a + b[..n];
      AnswersConcat(a, b[..n], j);
    }
  }

  lemma AnswersSnoc(a: seq<Done>, d: Done, j: nat)
    ensures Answers(a + [d], j) == Answers(a, j) + One(d.issue == j)
  {
    assert (a + [d])[..|a|] == a;
  }

  /** Eviction moves each expired slot's allocation to the completions. */
  lemma {:induction false} EvictMoves(w: World, at: nat, n: nat, j: nat)
    requires Shape(w) && n <= |w.owner|
    ensures Holding(Kept(w.table.entries, Wrap32(at))[..n], w.owner[..n], j) + Answers(TimeoutsOf(w, at, n), j)
         == Holding(w.table.entries[..n], w.owner[..n], j)
    ensures |ActiveSlots(Kept(w.table.entries, Wrap32(at))[..n])| + |TimeoutsOf(w, at, n)|
         == |ActiveSlots(w.table.entries[..n])|
    decreases n
  {
    var entries, kept := w.table.entries, Kept(w.table.entries, Wrap32(at));
    if n == 0 {
      assert kept[..0] == [] && entries[..0] == [];
    } else {
      hide *;
      EvictMoves(w, at, n - 1, j);
      KeptAt(entries, Wrap32(at), n - 1);
      Prefix(kept, w.owner, n - 1, j);
      Prefix(entries, w.owner, n - 1, j);
      TimeoutsLast(w, at, n, j);
    }
  }

  lemma KeptAt(entries: seq<PendingEntry>, now: u32, i: nat)
    requires i < |entries|
    ensures Kept(entries, now)[i].active <==> entries[i].active && !Expired(entries[i], now)
    ensures Expired(entries[i], now) ==> entries[i].active
  {
    hide TimeAfter;
  }

  /** One slot more. */
  lemma Prefix(entries: seq<PendingEntry>, owner: seq<nat>, i: nat, j: nat)
    requires |entries| == |owner| && i < |entries|
    ensures Holding(entries[..i + 1], owner[..i + 1], j) == Holding(entries[..i], owner[..i], j)
      + One(entries[i].active && owner[i] == j)
    ensures |ActiveSlots(entries[..i + 1])| == |ActiveSlots(entries[..i])| + One(entries[i].active)
  {
    hide Holding, ActiveSlots;
    assert entries[..i + 1] == entries[..i] + [entries[i]] && owner[..i + 1] == owner[..i] + [owner[i]];
    HoldingSnoc(entries[..i], owner[..i], entries[i], owner[i], j);
    ActiveSlotsSnoc(entries[..i], entries[i]);
  }

  lemma TimeoutsLast(w: World, at: nat, n: nat, j: nat)
    requires Shape(w) && 0 < n <= |w.owner|
    ensures var expired := Expired(w.table.entries[n - 1], Wrap32(at));
      && Answers(TimeoutsOf(w, at, n), j) == Answers(TimeoutsOf(w, at, n - 1), j) + One(expired && w.owner[n - 1] == j)
      && |TimeoutsOf(w, at, n)| == |TimeoutsOf(w, at, n - 1)| + One(expired)
  {
    hide Expired, Wrap32, Answers;
    if Expired(w.table.entries[n - 1], Wrap32(at)) {
      AnswersSnoc(TimeoutsOf(w, at, n - 1),
                  Done(Completion(w.table.entries[n - 1], 6, []), w.owner[n - 1], at, true), j);
    } else {
      assert TimeoutsOf(w, at, n) == TimeoutsOf(w, at, n - 1);
    }
  }

  lemma HoldingSnoc(entries: seq<PendingEntry>, owner: seq<nat>, e: PendingEntry, o: nat, j: nat)
    requires |entries| == |owner|
    ensures Holding(entries + [e], owner + [o], j) == Holding(entries, owner, j) + One(e.active && o == j)
  {
    assert (entries + [e])[..|entries|] == entries && (owner + [o])[..|owner|] == owner;
  }

  lemma {:induction false} TimeoutsRecord(w: World, at: nat, n: nat, d: nat)
    requires IdInv(w) && n <= |w.owner| && d < |TimeoutsOf(w, at, n)|
    ensures var x := TimeoutsOf(w, at, n)[d];
      x.issue < |w.issues| && x.completion.entry == w.issues[x.issue].entry
      && x.timeout && x.at == at && Expired(x.completion.entry, Wrap32(at))
      && exists i :: 0 <= i < n && w.table.entries[i].active && w.owner[i] == x.issue
    decreases n
  {
    hide Wrap32, TimeAfter;
    if d < |TimeoutsOf(w, at, n - 1)| {
      TimeoutsRecord(w, at, n - 1, d);
    } else {
      assert HoldsLatest(w, n - 1);
    }
  }

  lemma ConservedStep(w: World, e: Timed, defaultMs: u32)
    requires Conserved(w)
    ensures Conserved(Step(w, e, defaultMs))
  {
    IdStep(w, e, defaultMs);
    match e.op
    case AllocateOp(_, _, _, _) => ConservedAllocate(w, e, defaultMs);
    case CompleteOp(_, _, _) => ConservedComplete(w, e, defaultMs);
    case EvictOp => ConservedEvict(w, e, defaultMs);
  }

  lemma ConservedAllocate(w: World, e: Timed, defaultMs: u32)
    requires Conserved(w) && e.op.AllocateOp? && IdInv(Step(w, e, defaultMs))
    ensures Conserved(Step(w, e, defaultMs))
  {
    hide Wrap32, Probe, HoldsLatest, Holding, Answers, ActiveSlots;
    var w' := Step(w, e, defaultMs);
    var slot := FreeSlot(w.table.entries);
    forall j: nat
      ensures Balanced(w', j)
    {
      assert Balanced(w, j);
      if slot < |w.table.entries| {
        HoldingUpdate(w.table.entries, w.owner, slot, w'.table.entries[slot], |w.issues|, j);
      }
    }
    if slot < |w.table.entries| {
      ActiveUpdate(w.table.entries, slot, w'.table.entries[slot]);
    }
    forall d | 0 <= d < |w'.done|
      ensures Recorded(w', d)
    {
      assert Recorded(w, d);
    }
  }

  lemma ConservedComplete(w: World, e: Timed, defaultMs: u32)
    requires Conserved(w) && e.op.CompleteOp? && IdInv(Step(w, e, defaultMs))
    ensures Conserved(Step(w, e, defaultMs))
  {
    hide HoldsLatest, Holding, Answers, ActiveSlots;
    var w' := Step(w, e, defaultMs);
    var slot := SlotOf(w.table.entries, e.op.id);
    if slot < |w.table.entries| {
      forall j: nat
        ensures Balanced(w', j)
      {
        assert Balanced(w, j);
        HoldingUpdate(w.table.entries, w.owner, slot, FREE, w.owner[slot], j);
        assert w.owner[slot := w.owner[slot]] == w.owner;
        AnswersSnoc(w.done, w'.done[|w.done|], j);
      }
      ActiveUpdate(w.table.entries, slot, FREE);
      forall d | 0 <= d < |w'.done|
        ensures Recorded(w', d)
      {
        if d < |w.done| {
          assert Recorded(w, d);
        } else {
          LatestRecord(w, slot);
        }
      }
    } else {
      forall j: nat
        ensures Balanced(w', j)
      {
        assert Balanced(w, j);
      }
      forall d | 0 <= d < |w'.done|
        ensures Recorded(w', d)
      {
        assert Recorded(w, d);
      }
    }
  }

  lemma LatestRecord(w: World, i: nat)
    requires IdInv(w) && i < |w.owner| && w.table.entries[i].active
    ensures w.owner[i] < |w.issues| && w.table.entries[i] == w.issues[w.owner[i]].entry
  {
    assert HoldsLatest(w, i);
  }

  lemma ConservedEvict(w: World, e: Timed, defaultMs: u32)
    requires Conserved(w) && e.op.EvictOp? && IdInv(Step(w, e, defaultMs))
    ensures Conserved(Step(w, e, defaultMs))
  {
    hide Wrap32, TimeAfter, HoldsLatest, Holding, Answers, ActiveSlots, TimeoutsOf;
    var w' := Step(w, e, defaultMs);
    var n := |w.owner|;
    WholeTable(w, w');
    EvictMoves(w, e.at, n, 0);
    forall j: nat
      ensures Balanced(w', j)
    {
      assert Balanced(w, j);
      EvictMoves(w, e.at, n, j);
      AnswersConcat(w.done, TimeoutsOf(w, e.at, n), j);
    }
    forall d | 0 <= d < |w'.done|
      ensures Recorded(w', d)
    {
      if d < |w.done| {
        assert Recorded(w, d);
      } else {
        TimeoutsRecord(w, e.at, n, d - |w.done|);
      }
    }
  }

  lemma WholeTable(w: World, w': World)
    requires Shape(w) && Shape(w') && |w.owner| == |w'.owner|
    ensures w.table.entries[..|w.owner|] == w.table.entries && w'.table.entries[..|w.owner|] == w'.table.entries
    ensures w.owner[..|w.owner|] == w.owner
  {
  }

  lemma {:induction false} ConservedRun(w: World, run: seq<Timed>, defaultMs: u32)
    requires Conserved(w)
    ensures Conserved(Run(w, run, defaultMs))
    decreases |run|
  {
    hide Conserved;
    if run != [] {
      assert Shape(w) by { ConservedShape(w); }
      ConservedStep(w, run[0], defaultMs);
      ConservedRun(Step(w, run[0], defaultMs), run[1..], defaultMs);
    }
  }

  lemma ConservedShape(w: World)
    requires Conserved(w)
    ensures Shape(w)
  {
  }

  lemma InitialConserved(slots: nat)
    requires 0 < slots <= TWO_32
    ensures Conserved(Initial(slots))
  {
    var w := Initial(slots);
    forall j: nat
      ensures Balanced(w, j)
    {
      NothingHeld(w.table.entries, w.owner, j);
    }
    assert ActiveSlots(w.table.entries) == {};
  }

  lemma {:induction false} NothingHeld(entries: seq<PendingEntry>, owner: seq<nat>, j: nat)
    requires |entries| == |owner| && forall i :: 0 <= i < |entries| ==> !entries[i].active
    ensures Holding(entries, owner, j) == 0
    decreases |entries|
  {
    if entries != [] {
      NothingHeld(entries[..|entries| - 1], owner[..|entries| - 1], j);
    }
  }

  lemma {:induction false} AnswersAtLeast(done: seq<Done>, d: nat)
    requires d < |done|
    ensures Answers(done, done[d].issue) >= 1
    decreases |done|
  {
    if d < |done| - 1 {
      AnswersAtLeast(done[..|done| - 1], d);
    }
  }

  lemma {:induction false} AnsweredTwice(done: seq<Done>, d1: nat, d2: nat)
    requires d1 < d2 < |done| && done[d1].issue == done[d2].issue
    ensures Answers(done, done[d1].issue) >= 2
    decreases |done|
  {
    var n := |done| - 1;
    if d2 < n {
      AnsweredTwice(done[..n], d1, d2);
    } else {
      AnswersAtLeast(done[..n], d1);
    }
  }

  lemma {:induction false} HoldingAtLeast(entries: seq<PendingEntry>, owner: seq<nat>, i: nat)
    requires |entries| == |owner| && i < |entries| && entries[i].active
    ensures Holding(entries, owner, owner[i]) >= 1
    decreases |entries|
  {
    if i < |entries| - 1 {
      HoldingAtLeast(entries[..|entries| - 1], owner[..|entries| - 1], i);
    }
  }

  /** In every run from an empty table: successful allocations are the active entries
      plus the completions; no allocation is completed twice; each completion reports the
      entry of its own allocation; and none that is still held was completed. */
  lemma RequestConservation(slots: nat, run: seq<Timed>, defaultMs: u32)
    requires 0 < slots <= TWO_32
    ensures var w := Run(Initial(slots), run, defaultMs);
      && Shape(w)
      && |w.issues| == |ActiveSlots(w.table.entries)| + |w.done|
      && (forall d :: 0 <= d < |w.done| ==> Recorded(w, d))
      && (forall d1, d2 :: 0 <= d1 < d2 < |w.done| ==> w.done[d1].issue != w.done[d2].issue)
      && (forall i, d :: 0 <= i < |w.owner| && w.table.entries[i].active && 0 <= d < |w.done|
            ==> w.owner[i] != w.done[d].issue)
  {
    hide Run, Holding, Answers, ActiveSlots, HoldsLatest;
    InitialConserved(slots);
    ConservedRun(Initial(slots), run, defaultMs);
    var w := Run(Initial(slots), run, defaultMs);
    forall d1, d2 | 0 <= d1 < d2 < |w.done|
      ensures w.done[d1].issue != w.done[d2].issue
    {
      assert Balanced(w, w.done[d1].issue);
      if w.done[d1].issue == w.done[d2].issue {
        AnsweredTwice(w.done, d1, d2);
      }
    }
    forall i, d | 0 <= i < |w.owner| && w.table.entries[i].active && 0 <= d < |w.done|
      ensures w.owner[i] != w.done[d].issue
    {
      assert Balanced(w, w.owner[i]);
      HoldingAtLeast(w.table.entries, w.owner, i);
      AnswersAtLeast(w.done, d);
    }
  }

  // ------------------------------------------------------------------ true timeouts

  /** Times never go back, timeouts and the gaps between evictions stay below 2^31 ms. */
  ghost predicate Timely(w: World, e: Timed, defaultMs: u32) {
    && w.now <= e.at
    && (e.op.AllocateOp? ==> Effective(e.op.timeoutMs, defaultMs) < TWO_31)
    && (e.op.EvictOp? ==> e.at - w.evictedAt < TWO_31)
  }

  ghost predicate TimelyRun(w: World, run: seq<Timed>, defaultMs: u32)
    requires Shape(w)
    decreases |run|
  {
    if run == [] then true
    else
      StepShape(w, run[0], defaultMs);
      Timely(w, run[0], defaultMs) && TimelyRun(Step(w, run[0], defaultMs), run[1..], defaultMs)
  }

  /** Every pending request is within the comparison window, none is overdue since the
      last eviction, and each timeout so far came strictly after its true deadline. */
  ghost predicate DueInv(w: World) {
    && IdInv(w)
    && w.evictedAt <= w.now
    && (forall i :: 0 <= i < |w.owner| && w.table.entries[i].active ==> SlotDue(w, i))
    && (forall d :: 0 <= d < |w.done| && w.done[d].timeout ==>
          w.done[d].issue < |w.issues| && w.issues[w.done[d].issue].due < w.done[d].at)
  }

  ghost predicate SlotDue(w: World, i: nat)
    requires Shape(w) && i < |w.owner|
  {
    && w.owner[i] < |w.issues|
    && w.table.entries[i].deadlineMs == Wrap32(w.issues[w.owner[i]].due)
    && w.evictedAt <= w.issues[w.owner[i]].due < w.now + TWO_31
  }

  lemma DueStep(w: World, e: Timed, defaultMs: u32)
    requires DueInv(w) && Timely(w, e, defaultMs)
    ensures DueInv(Step(w, e, defaultMs))
  {
    hide Wrap32, TimeAfter;
    IdStep(w, e, defaultMs);
    var w' := Step(w, e, defaultMs);
    if e.op.AllocateOp? {
      WrapSum(e.at, Effective(e.op.timeoutMs, defaultMs));
    }
    forall i | 0 <= i < |w'.owner| && w'.table.entries[i].active
      ensures SlotDue(w', i)
    {
      if !(e.op.AllocateOp? && i == FreeSlot(w.table.entries)) {
        assert SlotDue(w, i);
        if e.op.EvictOp? {
          ClockComparison(e.at, w.issues[w.owner[i]].due);
        }
      }
    }
    if e.op.EvictOp? {
      forall d | |w.done| <= d < |w'.done|
        ensures w'.done[d].issue < |w'.issues| && w'.issues[w'.done[d].issue].due < w'.done[d].at
      {
        TimeoutsRecord(w, e.at, |w.owner|, d - |w.done|);
        var x := w'.done[d];
        var i :| 0 <= i < |w.owner| && w.table.entries[i].active && w.owner[i] == x.issue;
        assert SlotDue(w, i) && HoldsLatest(w, i);
        ClockComparison(e.at, w.issues[x.issue].due);
      }
    }
  }

  lemma {:induction false} DueRun(w: World, run: seq<Timed>, defaultMs: u32)
    requires DueInv(w) && TimelyRun(w, run, defaultMs)
    ensures DueInv(Run(w, run, defaultMs))
    decreases |run|
  {
    if run != [] {
      DueStep(w, run[0], defaultMs);
      DueRun(Step(w, run[0], defaultMs), run[1..], defaultMs);
    }
  }

  /** On every timely run, across clock wraps: a request is timed out only strictly after
      its true deadline, and none is left pending past an eviction after its deadline. */
  lemma TimeoutsAreTrue(slots: nat, run: seq<Timed>, defaultMs: u32)
    requires 0 < slots <= TWO_32 && TimelyRun(Initial(slots), run, defaultMs)
    ensures var w := Run(Initial(slots), run, defaultMs);
      && Shape(w)
      && (forall d :: 0 <= d < |w.done| && w.done[d].timeout ==>
            w.done[d].issue < |w.issues| && w.issues[w.done[d].issue].due < w.done[d].at)
      && (forall i :: 0 <= i < |w.owner| && w.table.entries[i].active ==>
            w.owner[i] < |w.issues| && w.evictedAt <= w.issues[w.owner[i]].due)
  {
    DueRun(Initial(slots), run, defaultMs);
    var w := Run(Initial(slots), run, defaultMs);
    forall i | 0 <= i < |w.owner| && w.table.entries[i].active
      ensures w.owner[i] < |w.issues| && w.evictedAt <= w.issues[w.owner[i]].due
    {
      assert SlotDue(w, i);
    }
  }
}
