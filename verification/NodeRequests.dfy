/** Requests over whole runs of one device: what its application is told about them is exactly
what the tracker completes, so every request is called back once. */
module NodeRequests {
  import opened Words
  import opened Wire
  import opened SdMessages
  import opened DiscoverySpec
  import opened Frame
  import opened Node
  import opened NodeEffects
  import E2E = E2EProtection
  import EM = EventManager
  import RT = RequestTracker
  import RR = RequestRuns

  // ------------------------------------------------------------------ runs of a device

  /** What happens to a device: calls of its application, and cycles of `process`. */
  datatype Act =
    | RequestAct(target: Address, sid: u16, mid: u16, payload: Bytes, callback: Option<nat>, timeoutMs: u32)
    | ProcessAct(inbox: seq<Inbound>)
    | DiscoveryAct(e: Event)
    | RegisterAct(sid: u16, eid: u16)
    | NotifyAct(sid: u16, eid: u16, payload: Bytes)
    | OneWayAct(sid: u16, mid: u16, payload: Bytes)

  datatype TimedAct = TimedAct(act: Act, at: nat)

  function Next(cfg: NodeConfig, setup: Setup, n: NodeState, a: TimedAct): NodeState {
    var now := Wrap32(a.at);
    match a.act
    case RequestAct(target, sid, mid, payload, callback, timeoutMs) =>
      RequestTo(cfg, setup, n, target, sid, mid, payload, callback, timeoutMs, now).0
    case ProcessAct(inbox) => Process(cfg, setup, n, inbox, now)
    case DiscoveryAct(e) => SdStep(cfg, n, e, now)
    case RegisterAct(sid, eid) => n.(events := EM.Register(n.events, cfg.limits, sid, eid).0)
    case NotifyAct(sid, eid, payload) => Notify(cfg, setup, n, sid, eid, payload).0
    case OneWayAct(sid, mid, payload) => FireAndForget(cfg, setup, n, sid, mid, payload).0
  }

  function After(cfg: NodeConfig, setup: Setup, n: NodeState, run: seq<TimedAct>): NodeState
    decreases |run|
  {
    if run == [] then n else After(cfg, setup, Next(cfg, setup, n, run[0]), run[1..])
  }

  /** What the application asked for, and with which callback. */
  datatype Asked = Asked(serviceId: u16, methodId: u16, callback: Option<nat>)

  /** The requests of a run that found a free slot, in order. */
  function Entered(cfg: NodeConfig, setup: Setup, n: NodeState, run: seq<TimedAct>): seq<Asked>
    decreases |run|
  {
    if run == [] then [] else Enters(n, run[0].act) + Entered(cfg, setup, Next(cfg, setup, n, run[0]), run[1..])
  }

  function Enters(n: NodeState, a: Act): seq<Asked> {
    if a.RequestAct? && RT.FreeSlot(n.requests.entries) < |n.requests.entries| then [Asked(a.sid, a.mid, a.callback)]
      else []
  }

  function AskedBy(e: RT.PendingEntry): Asked {
    Asked(e.serviceId, e.methodId, e.callback)
  }

  ghost function AllAsked(issues: seq<RR.Issue>): seq<Asked> {
    seq(|issues|, i requires 0 <= i < |issues| => AskedBy(issues[i].entry))
  }

  /** What an operation enters into the table. */
  function EntersOp(t: RT.Requests, op: RR.Op): seq<Asked> {
    if op.AllocateOp? && RT.FreeSlot(t.entries) < |t.entries| then [Asked(op.serviceId, op.methodId, op.callback)]
      else []
  }

  /** What the application was told about its requests, in order. */
  function Told(app: seq<AppEvent>): seq<AppEvent> {
    if app == [] then []
    else Told(app[..|app| - 1]) + (if app[|app| - 1].RequestDone? then [app[|app| - 1]] else [])
  }

  lemma {:induction false} ToldConcat(a: seq<AppEvent>, b: seq<AppEvent>)
    ensures Told(a + b) == Told(a) + Told(b)
    decreases |b|
  {
    if b == [] {
      assert a + b == a;
    } else {
      assert (a + b)[..|a + b| - 1] == a + b[..|b| - 1];
      ToldConcat(a, b[..|b| - 1]);
    }
  }

  lemma {:induction false} ToldNothing(app: seq<AppEvent>)
    requires forall i :: 0 <= i < |app| ==> !app[i].RequestDone?
    ensures Told(app) == []
    decreases |app|
  {
    if app != [] {
      ToldNothing(app[..|app| - 1]);
    }
  }

  lemma {:induction false} ToldAll(app: seq<AppEvent>)
    requires forall i :: 0 <= i < |app| ==> app[i].RequestDone?
    ensures Told(app) == app
    decreases |app|
  {
    if app != [] {
      ToldAll(app[..|app| - 1]);
      assert app == app[..|app| - 1] + [app[|app| - 1]];
    }
  }

  // --------------------------------------------------------- operations on the tracker

  /** One operation on the table, and the completions it hands out. */
  function Effect(t: RT.Requests, op: RR.Op, defaultMs: u32, now: u32): (RT.Requests, seq<RT.Completion>) {
    match op
    case AllocateOp(sid, mid, timeout, callback) =>
      (RT.AllocateIn(t, RT.PendingEntry(0, sid, mid, RT.Deadline(timeout, defaultMs, now), callback, true)).0, [])
    case CompleteOp(id, rc, payload) => RT.CompleteIn(t, id, rc, payload)
    case EvictOp => RT.EvictFrom(t, now)
  }

  /** The device does operation `op`, and tells the application of each completion with a
      callback. */
  ghost predicate Does(cfg: NodeConfig, n: NodeState, n': NodeState, op: RR.Op, now: u32) {
    var (t, done) := Effect(n.requests, op, cfg.requestTimeoutMs, now);
    n'.requests == t && Told(n'.app) == Told(n.app) + Completions(done)
  }

  /** The device does nothing to its requests. */
  ghost predicate Rests(n: NodeState, n': NodeState) {
    n'.requests == n.requests && Told(n'.app) == Told(n.app)
  }

  lemma RestsWhen(n: NodeState, n': NodeState)
    requires n'.requests == n.requests && n.app <= n'.app
    requires forall i :: |n.app| <= i < |n'.app| ==> !n'.app[i].RequestDone?
    ensures Rests(n, n')
  {
    var more := n'.app[|n.app|..];
    assert n'.app == n.app + more;
    ToldConcat(n.app, more);
    ToldNothing(more);
  }

  lemma StepRests(cfg: NodeConfig, n: NodeState, e: Event, now: u32)
    ensures Rests(n, SdStep(cfg, n, e, now))
  {
    hide Step, SdStep, Carries, Sendable;
    SdStepCarries(cfg, n, e, now);
    var n' := SdStep(cfg, n, e, now);
    RestsWhen(n, n');
  }

  lemma CompletesOrRests(n: NodeState, done: seq<RT.Completion>)
    ensures Told(n.app + Completions(done)) == Told(n.app) + Completions(done)
  {
    CompletionsOnly(done);
    ToldConcat(n.app, Completions(done));
    ToldAll(Completions(done));
  }

  /** The completion a frame causes, if any. */
  ghost predicate Handled(cfg: NodeConfig, n: NodeState, n': NodeState, ops: seq<RR.Op>, now: u32) {
    if ops == [] then Rests(n, n') else |ops| == 1 && ops[0].CompleteOp? && Does(cfg, n, n', ops[0], now)
  }

  lemma DispatchHandles(cfg: NodeConfig, setup: Setup, n: NodeState, source: Address, h: Header, payload: Bytes,
                        now: u32) returns (ops: seq<RR.Op>)
    ensures Handled(cfg, n, Dispatch(cfg, setup, n, source, h, payload, now), ops, now)
    ensures ops != [] ==>
      (h.messageType == RESPONSE || h.messageType == ERROR)
        && ops == [RR.CompleteOp(h.requestId, h.returnCode, payload)]
  {
    hide SdStep, Build, Answer, HandleMessage, ParsePayload, RT.CompleteIn, Told, Completions;
    ops := [];
    var n' := Dispatch(cfg, setup, n, source, h, payload, now);
    if h.serviceId == SD_SERVICE_ID {
      if ParsePayload(h.methodEventId, payload, cfg.addressSize).Some? {
        MessageRests(cfg, n, source, h.clientId, h.returnCode,
                     ParsePayload(h.methodEventId, payload, cfg.addressSize).value, now);
      }
    } else if h.messageType == RESPONSE || h.messageType == ERROR {
      ops := [RR.CompleteOp(h.requestId, h.returnCode, payload)];
      CompletesOrRests(n, RT.CompleteIn(n.requests, h.requestId, h.returnCode, payload).1);
    } else {
      RestsWhen(n, n');
    }
  }

  lemma MessageRests(cfg: NodeConfig, n: NodeState, source: Address, client: u16, result: u8, m: SdMessage, now: u32)
    ensures Rests(n, HandleMessage(cfg, n, source, client, result, m, now))
  {
    hide SdStep, Step, EM.Subscribe, EM.Unsubscribe, Told, SdFrame;
    match m
    case OfferService(sid, major, minor, ttl, session, provider) =>
      var n1 := if DetectReboot(n.sd.consumers, sid, session) then n.(peers := E2E.ResetPeer(n.peers, provider)) else n;
      StepRests(cfg, n1, RxOffer(sid, major, ttl, session, provider), now);
    case FindService(sid) => StepRests(cfg, n.(peers := E2E.ResetPeer(n.peers, source)), RxFind(sid, source), now);
    case SubscribeAck(sid, eid, ttl) => StepRests(cfg, n, RxAck(sid, eid, result, ttl), now);
    case SubscribeEvent(_, _, _) =>
    case Unsubscribe(_, _) =>
  }

  /** The frame answers a request with code 6, E_TIMEOUT. */
  predicate SaysTimeout(cfg: NodeConfig, d: Bytes, id: u32) {
    match CheckFrame(cfg.maxPayloadSize, d)
    case Rejected(_) => false
    case Passed(h) =>
      (h.messageType == RESPONSE || h.messageType == ERROR) && h.returnCode == 6 && h.requestId == id
  }

  lemma ReceiveHandles(cfg: NodeConfig, setup: Setup, n: NodeState, source: Address, d: Bytes, now: u32)
      returns (ops: seq<RR.Op>)
    ensures Handled(cfg, n, Receive(cfg, setup, n, source, d, now), ops, now)
    ensures ops != [] && ops[0].CompleteOp? && ops[0].rc == 6 ==> SaysTimeout(cfg, d, ops[0].id)
  {
    hide CheckFrame, Authentic, Dispatch, Told, Effect;
    ops := [];
    PassedFits(cfg.maxPayloadSize, d);
    if CheckFrame(cfg.maxPayloadSize, d).Passed? {
      var h := CheckFrame(cfg.maxPayloadSize, d).header;
      var (n1, goesOn) := SequenceCheck(cfg, n, source, h);
      if goesOn && Authentic(setup, source, h, d) {
        ops := DispatchHandles(cfg, setup, n1, source, h, PayloadOf(h, d), now);
      }
    }
  }

  // ---------------------------------------------------- a device shadows its tracker

  ghost function CompletionsOf(done: seq<RR.Done>): seq<RT.Completion> {
    if done == [] then [] else CompletionsOf(done[..|done| - 1]) + [done[|done| - 1].completion]
  }

  /** The device's table is the tracker's, and the application was told of exactly the
      completions that have a callback, in order. */
  ghost predicate Shadows(n: NodeState, w: RR.World) {
    RR.Shape(w) && n.requests == w.table && Told(n.app) == Completions(CompletionsOf(w.done))
  }

  lemma {:induction false} CompletionsConcat(a: seq<RT.Completion>, b: seq<RT.Completion>)
    ensures Completions(a + b) == Completions(a) + Completions(b)
    decreases |b|
  {
    if b == [] {
      assert a + b == a;
    } else {
      assert (a + b)[..|a + b| - 1] == a + b[..|b| - 1];
      CompletionsConcat(a, b[..|b| - 1]);
    }
  }

  lemma {:induction false} CompletionsOfConcat(a: seq<RR.Done>, b: seq<RR.Done>)
    ensures CompletionsOf(a + b) == CompletionsOf(a) + CompletionsOf(b)
    decreases |b|
  {
    if b == [] {
      assert a + b == a;
    } else {
      assert (a + b)[..|a + b| - 1] == a + b[..|b| - 1];
      CompletionsOfConcat(a, b[..|b| - 1]);
    }
  }

  lemma {:induction false} TimeoutsAre(w: RR.World, at: nat, n: nat)
    requires RR.Shape(w) && n <= |w.owner|
    ensures CompletionsOf(RR.TimeoutsOf(w, at, n)) == RT.TimedOut(w.table.entries[..n], Wrap32(at))
  {
    hide RT.Expired, Wrap32;
    if n > 0 {
      TimeoutsAre(w, at, n - 1);
      assert w.table.entries[..n][..n - 1] == w.table.entries[..n - 1];
      var last := if RT.Expired(w.table.entries[n - 1], Wrap32(at))
        then [RR.Done(RT.Completion(w.table.entries[n - 1], 6, []), w.owner[n - 1], at, true)] else [];
      CompletionsOfConcat(RR.TimeoutsOf(w, at, n - 1), last);
      OneCompletion(last);
    }
  }

  lemma OneCompletion(done: seq<RR.Done>)
    requires |done| <= 1
    ensures CompletionsOf(done) == if done == [] then [] else [done[0].completion]
  {
    assert done != [] ==> done[..0] == [];
  }

  /** A step of the tracker's run is the operation. */
  lemma StepEffect(w: RR.World, e: RR.Timed, defaultMs: u32)
    requires RR.Shape(w)
    ensures var w' := RR.Step(w, e, defaultMs);
      var (t, done) := Effect(w.table, e.op, defaultMs, Wrap32(e.at));
      && RR.Shape(w') && w'.table == t && CompletionsOf(w'.done) == CompletionsOf(w.done) + done
      && AllAsked(w'.issues) == AllAsked(w.issues) + EntersOp(w.table, e.op)
  {
    hide RT.Probe, RT.ActiveIds, RT.Deadline, Wrap32, CompletionsOf, RR.TimeoutsOf;
    RR.StepShape(w, e, defaultMs);
    match e.op
    case AllocateOp(_, _, _, _) =>
    case CompleteOp(id, rc, payload) =>
      var done := RT.CompleteIn(w.table, id, rc, payload).1;
      if done != [] {
        var more := [RR.Done(done[0], w.owner[RT.SlotOf(w.table.entries, id)], e.at, false)];
        CompletionsOfConcat(w.done, more);
        OneCompletion(more);
      }
    case EvictOp =>
      CompletionsOfConcat(w.done, RR.TimeoutsOf(w, e.at, |w.owner|));
      TimeoutsAre(w, e.at, |w.owner|);
      assert w.table.entries[..|w.owner|] == w.table.entries;
  }

  lemma DoesShadows(cfg: NodeConfig, n: NodeState, n': NodeState, w: RR.World, op: RR.Op, at: nat)
    requires Shadows(n, w) && Does(cfg, n, n', op, Wrap32(at))
    ensures RR.Shape(w) && Shadows(n', RR.Step(w, RR.Timed(op, at), cfg.requestTimeoutMs))
  {
    hide Effect, RR.Step, Completions, CompletionsOf, Told, Wrap32;
    StepEffect(w, RR.Timed(op, at), cfg.requestTimeoutMs);
    CompletionsConcat(CompletionsOf(w.done), Effect(w.table, op, cfg.requestTimeoutMs, Wrap32(at)).1);
  }

  lemma RestsShadows(n: NodeState, n': NodeState, w: RR.World)
    requires Shadows(n, w) && Rests(n, n')
    ensures Shadows(n', w)
  {
    hide Completions, CompletionsOf, Told;
  }

  lemma {:induction false} RunConcat(w: RR.World, a: seq<RR.Timed>, b: seq<RR.Timed>, defaultMs: u32)
    requires RR.Shape(w)
    ensures RR.Shape(RR.Run(w, a, defaultMs))
      && RR.Run(w, a + b, defaultMs) == RR.Run(RR.Run(w, a, defaultMs), b, defaultMs)
    decreases |a|
  {
    hide RR.Step;
    if a == [] {
      assert a + b == b;
    } else {
      RR.StepShape(w, a[0], defaultMs);
      assert (a + b)[0] == a[0] && (a + b)[1..] == a[1..] + b;
      RunConcat(RR.Step(w, a[0], defaultMs), a[1..], b, defaultMs);
    }
  }

  lemma RunOne(w: RR.World, e: RR.Timed, defaultMs: u32)
    requires RR.Shape(w)
    ensures RR.Run(w, [e], defaultMs) == RR.Step(w, e, defaultMs)
  {
    hide RR.Step;
    RR.StepShape(w, e, defaultMs);
    assert [e][1..] == [];
  }

  /** `ops` take the tracker from `w` to where it shadows `n'`, entering `more` requests. */
  ghost predicate Follows(n': NodeState, w: RR.World, ops: seq<RR.Timed>, defaultMs: u32, more: seq<Asked>) {
    RR.Shape(w) && Shadows(n', RR.Run(w, ops, defaultMs))
      && AllAsked(RR.Run(w, ops, defaultMs).issues) == AllAsked(w.issues) + more
  }

  lemma NoOps(n: NodeState, n': NodeState, w: RR.World, defaultMs: u32)
    requires Shadows(n, w) && Rests(n, n')
    ensures Follows(n', w, [], defaultMs, [])
  {
    hide Rests;
    RestsShadows(n, n', w);
  }

  lemma OneOp(cfg: NodeConfig, n: NodeState, n': NodeState, w: RR.World, op: RR.Op, at: nat)
    requires Shadows(n, w) && Does(cfg, n, n', op, Wrap32(at))
    ensures Follows(n', w, [RR.Timed(op, at)], cfg.requestTimeoutMs, EntersOp(n.requests, op))
  {
    hide Does, RR.Step, RR.Run;
    DoesShadows(cfg, n, n', w, op, at);
    StepEffect(w, RR.Timed(op, at), cfg.requestTimeoutMs);
    RunOne(w, RR.Timed(op, at), cfg.requestTimeoutMs);
  }

  lemma MoreOps(n1: NodeState, n2: NodeState, w: RR.World, a: seq<RR.Timed>, b: seq<RR.Timed>, defaultMs: u32,
                i: seq<Asked>, j: seq<Asked>)
    requires Follows(n1, w, a, defaultMs, i) && Follows(n2, RR.Run(w, a, defaultMs), b, defaultMs, j)
    ensures Follows(n2, w, a + b, defaultMs, i + j)
  {
    hide RR.Run, Shadows;
    RunConcat(w, a, b, defaultMs);
  }

  // ------------------------------------------------------------- one act of the device

  /** The act hands the device an answer with the return code of a timeout. */
  ghost predicate HearsTimeout(cfg: NodeConfig, a: Act, id: u32) {
    a.ProcessAct? && exists j :: 0 <= j < |a.inbox| && SaysTimeout(cfg, a.inbox[j].frame, id)
  }

  /** An operation the act causes, at its time. */
  ghost predicate Fits(cfg: NodeConfig, a: TimedAct, e: RR.Timed) {
    e.at == a.at && match e.op
      case AllocateOp(_, _, timeout, _) => a.act.RequestAct? && timeout == a.act.timeoutMs
      case CompleteOp(id, rc, _) => rc == 6 ==> HearsTimeout(cfg, a.act, id)
      case EvictOp => a.act.ProcessAct?
  }

  ghost predicate AllFit(cfg: NodeConfig, a: TimedAct, ops: seq<RR.Timed>) {
    forall i :: 0 <= i < |ops| ==> Fits(cfg, a, ops[i])
  }

  lemma MoreHeard(cfg: NodeConfig, inbox: seq<Inbound>, k: nat, at: nat, ops: seq<RR.Timed>)
    requires k <= |inbox| && AllFit(cfg, TimedAct(ProcessAct(inbox[..k]), at), ops)
    ensures AllFit(cfg, TimedAct(ProcessAct(inbox), at), ops)
  {
    hide SaysTimeout;
    forall i | 0 <= i < |ops|
      ensures Fits(cfg, TimedAct(ProcessAct(inbox), at), ops[i])
    {
      assert Fits(cfg, TimedAct(ProcessAct(inbox[..k]), at), ops[i]);
      if ops[i].op.CompleteOp? && ops[i].op.rc == 6 {
        var j :| 0 <= j < k && SaysTimeout(cfg, inbox[..k][j].frame, ops[i].op.id);
        assert SaysTimeout(cfg, inbox[j].frame, ops[i].op.id);
      }
    }
  }

  lemma {:induction false} DrainFollows(cfg: NodeConfig, setup: Setup, n: NodeState, inbox: seq<Inbound>, w: RR.World,
                                        at: nat) returns (ops: seq<RR.Timed>)
    requires Shadows(n, w)
    ensures Follows(Drain(cfg, setup, n, inbox, Wrap32(at)), w, ops, cfg.requestTimeoutMs, [])
    ensures AllFit(cfg, TimedAct(ProcessAct(inbox), at), ops)
    decreases |inbox|
  {
    hide Receive, Shadows, RR.Run, Does, Rests, Wrap32, SaysTimeout;
    if inbox == [] {
      ops := [];
      RestsSelf(n);
      NoOps(n, n, w, cfg.requestTimeoutMs);
    } else {
      var last := inbox[|inbox| - 1];
      var n1 := Drain(cfg, setup, n, inbox[..|inbox| - 1], Wrap32(at));
      var first := DrainFollows(cfg, setup, n, inbox[..|inbox| - 1], w, at);
      var n2 := Receive(cfg, setup, n1, last.source, last.frame, Wrap32(at));
      var w1 := RR.Run(w, first, cfg.requestTimeoutMs);
      var done := ReceiveHandles(cfg, setup, n1, last.source, last.frame, Wrap32(at));
      var more := if done == [] then [] else [RR.Timed(done[0], at)];
      if done == [] {
        NoOps(n1, n2, w1, cfg.requestTimeoutMs);
      } else {
        OneOp(cfg, n1, n2, w1, done[0], at);
      }
      MoreOps(n1, n2, w, first, more, cfg.requestTimeoutMs, [], []);
      MoreHeard(cfg, inbox, |inbox| - 1, at, first);
      ops := first + more;
    }
  }

  lemma RestsSelf(n: NodeState)
    ensures Rests(n, n)
  {
  }

  /** Everything in a cycle after the expiry of requests leaves them alone. */
  lemma HousekeepingDoes(cfg: NodeConfig, n: NodeState, now: u32)
    ensures Does(cfg, n, Housekeeping(cfg, n, now), RR.EvictOp, now)
  {
    hide SdStep, EM.Evict, Told, Completions, RT.EvictFrom;
    var n1 := EvictRequests(n, now);
    CompletesOrRests(n, RT.EvictFrom(n.requests, now).1);
    var n2 := n1.(events := EM.Evict(n1.events, now));
    StepRests(cfg, n2, ProcessOffers, now);
    var n3 := SdStep(cfg, n2, ProcessOffers, now);
    StepRests(cfg, n3, ProcessRenewals, now);
    var n4 := SdStep(cfg, n3, ProcessRenewals, now);
    StepRests(cfg, n4, ProcessTtls, now);
    StepRests(cfg, SdStep(cfg, n4, ProcessTtls, now), ProcessFinds, now);
  }

  lemma ProcessFollows(cfg: NodeConfig, setup: Setup, n: NodeState, inbox: seq<Inbound>, w: RR.World, at: nat)
      returns (ops: seq<RR.Timed>)
    requires Shadows(n, w)
    ensures Follows(Process(cfg, setup, n, inbox, Wrap32(at)), w, ops, cfg.requestTimeoutMs, [])
    ensures AllFit(cfg, TimedAct(ProcessAct(inbox), at), ops) && ops != [] && ops[|ops| - 1].op.EvictOp?
  {
    hide Drain, Housekeeping, Shadows, RR.Run, Does, Wrap32, SaysTimeout;
    var n1 := Drain(cfg, setup, n, Taken(cfg, inbox), Wrap32(at));
    var first := DrainFollows(cfg, setup, n, Taken(cfg, inbox), w, at);
    var n2 := Housekeeping(cfg, n1, Wrap32(at));
    HousekeepingDoes(cfg, n1, Wrap32(at));
    OneOp(cfg, n1, n2, RR.Run(w, first, cfg.requestTimeoutMs), RR.EvictOp, at);
    MoreOps(n1, n2, w, first, [RR.Timed(RR.EvictOp, at)], cfg.requestTimeoutMs, [], []);
    ops := first + [RR.Timed(RR.EvictOp, at)];
    MoreHeard(cfg, inbox, |Taken(cfg, inbox)|, at, first);
  }

  /** A request enters the table, and leaves it at once when it cannot be sent. */
  lemma RequestFollows(cfg: NodeConfig, setup: Setup, n: NodeState, a: TimedAct, w: RR.World)
      returns (ops: seq<RR.Timed>)
    requires Shadows(n, w) && a.act.RequestAct?
    ensures Follows(Next(cfg, setup, n, a), w, ops, cfg.requestTimeoutMs, Enters(n, a.act)) && AllFit(cfg, a, ops)
  {
    hide Shadows, RR.Run, Wrap32, Build, RT.Probe, RT.ActiveIds, Told, Completions, RT.CompleteIn, RT.Deadline;
    var x := a.act;
    var allocate := RR.AllocateOp(x.sid, x.mid, x.timeoutMs, x.callback);
    var entry := RT.PendingEntry(0, x.sid, x.mid, RT.Deadline(x.timeoutMs, cfg.requestTimeoutMs, Wrap32(a.at)),
                                 x.callback, true);
    var (t, rid) := RT.AllocateIn(n.requests, entry);
    var n1 := n.(requests := t);
    NothingTold(n.app);
    OneOp(cfg, n, n1, w, allocate, a.at);
    var first := [RR.Timed(allocate, a.at)];
    var n' := Next(cfg, setup, n, a);
    if rid == None || cfg.linkUp(|n.wire|) {
      SameShadow(n1, n', RR.Run(w, first, cfg.requestTimeoutMs));
      ops := first;
    } else {
      var complete := RR.CompleteOp(rid.value, E_NOT_OK, []);
      CompletesOrRests(n1, RT.CompleteIn(t, rid.value, E_NOT_OK, []).1);
      var w1 := RR.Run(w, first, cfg.requestTimeoutMs);
      OneOp(cfg, n1, n', w1, complete, a.at);
      MoreOps(n1, n', w, first, [RR.Timed(complete, a.at)], cfg.requestTimeoutMs, Enters(n, a.act), []);
      ops := first + [RR.Timed(complete, a.at)];
    }
  }

  lemma NothingTold(app: seq<AppEvent>)
    ensures Told(app) + Completions([]) == Told(app)
  {
  }

  lemma SameShadow(n: NodeState, n': NodeState, w: RR.World)
    requires Shadows(n, w) && n'.requests == n.requests && n'.app == n.app
    ensures Shadows(n', w)
  {
  }

  lemma {:induction false} NotifyRests(cfg: NodeConfig, setup: Setup, n: NodeState, subs: seq<EM.Subscriber>,
                                       sid: u16, eid: u16, payload: Bytes)
    ensures Rests(n, NotifyAll(cfg, setup, n, subs, sid, eid, payload))
    decreases |subs|
  {
    hide Build, Told;
    if subs != [] {
      NotifyRests(cfg, setup, n, subs[..|subs| - 1], sid, eid, payload);
    }
  }

  lemma OthersRest(cfg: NodeConfig, setup: Setup, n: NodeState, a: TimedAct)
    requires !a.act.RequestAct? && !a.act.ProcessAct?
    ensures Rests(n, Next(cfg, setup, n, a))
  {
    hide Build, Told, NotifyAll, SdStep, EM.Register, EM.SubsOf, Wrap32;
    match a.act
    case DiscoveryAct(e) => StepRests(cfg, n, e, Wrap32(a.at));
    case NotifyAct(sid, eid, payload) => NotifyRests(cfg, setup, n, EM.SubsOf(n.events, sid, eid), sid, eid, payload);
    case _ =>
  }

  lemma ActFollows(cfg: NodeConfig, setup: Setup, n: NodeState, a: TimedAct, w: RR.World) returns (ops: seq<RR.Timed>)
    requires Shadows(n, w)
    ensures Follows(Next(cfg, setup, n, a), w, ops, cfg.requestTimeoutMs, Enters(n, a.act))
    ensures AllFit(cfg, a, ops) && (a.act.ProcessAct? ==> ops != [] && ops[|ops| - 1].op.EvictOp?)
  {
    hide Fits, Shadows, RR.Run, Wrap32, Rests, Process, RequestTo, SdStep, Notify, FireAndForget, EM.Register,
      RT.FreeSlot;
    if a.act.RequestAct? {
      ops := RequestFollows(cfg, setup, n, a, w);
    } else if a.act.ProcessAct? {
      ops := ProcessFollows(cfg, setup, n, a.act.inbox, w, a.at);
    } else {
      OthersRest(cfg, setup, n, a);
      NoOps(n, Next(cfg, setup, n, a), w, cfg.requestTimeoutMs);
      ops := [];
    }
  }

  lemma {:induction false} RunFollows(cfg: NodeConfig, setup: Setup, n: NodeState, run: seq<TimedAct>, w: RR.World)
      returns (ops: seq<RR.Timed>)
    requires Shadows(n, w)
    ensures Follows(After(cfg, setup, n, run), w, ops, cfg.requestTimeoutMs, Entered(cfg, setup, n, run))
    decreases |run|
  {
    hide Shadows, RR.Run, Next, Enters, Rests;
    if run == [] {
      RestsSelf(n);
      NoOps(n, n, w, cfg.requestTimeoutMs);
      ops := [];
    } else {
      var n1 := Next(cfg, setup, n, run[0]);
      var first := ActFollows(cfg, setup, n, run[0], w);
      var w1 := RR.Run(w, first, cfg.requestTimeoutMs);
      var rest := RunFollows(cfg, setup, n1, run[1..], w1);
      MoreOps(n1, After(cfg, setup, n, run), w, first, rest, cfg.requestTimeoutMs, Enters(n, run[0].act),
              Entered(cfg, setup, n1, run[1..]));
      ops := first + rest;
    }
  }

  // ------------------------------------------------------- every request is called back once

  /** The allocations whose completions have a callback, in the order of their completions. */
  ghost function Answered(done: seq<RR.Done>): seq<nat> {
    if done == [] then []
    else
      var last := done[|done| - 1];
      Answered(done[..|done| - 1]) + (if last.completion.entry.callback.Some? then [last.issue] else [])
  }

  /** `told` reports the requests `answers` names. */
  ghost predicate Reports(told: seq<AppEvent>, answers: seq<nat>, asked: seq<Asked>) {
    && |told| == |answers|
    && forall k :: 0 <= k < |told| ==>
      told[k].RequestDone? && answers[k] < |asked| && AskedBy(told[k].completion.entry) == asked[answers[k]]
        && asked[answers[k]].callback.Some?
  }

  lemma {:induction false} AnsweredReports(done: seq<RR.Done>, issues: seq<RR.Issue>)
    requires forall d :: 0 <= d < |done| ==>
      done[d].issue < |issues| && done[d].completion.entry == issues[done[d].issue].entry
    ensures Reports(Completions(CompletionsOf(done)), Answered(done), AllAsked(issues))
    decreases |done|
  {
    if done != [] {
      var n := |done| - 1;
      AnsweredReports(done[..n], issues);
      assert done[n].issue < |issues|;
    }
  }

  lemma {:induction false} AnsweredMembers(done: seq<RR.Done>, k: nat) returns (d: nat)
    requires k < |Answered(done)|
    ensures d < |done| && done[d].issue == Answered(done)[k]
    decreases |done|
  {
    var n := |done| - 1;
    if k < |Answered(done[..n])| {
      d := AnsweredMembers(done[..n], k);
    } else {
      d := n;
    }
  }

  lemma {:induction false} AnsweredDistinct(done: seq<RR.Done>)
    requires forall d1, d2 :: 0 <= d1 < d2 < |done| ==> done[d1].issue != done[d2].issue
    ensures forall i, j :: 0 <= i < j < |Answered(done)| ==> Answered(done)[i] != Answered(done)[j]
    decreases |done|
  {
    if done != [] {
      var n := |done| - 1;
      AnsweredDistinct(done[..n]);
      forall i | 0 <= i < |Answered(done[..n])|
        ensures Answered(done[..n])[i] != done[n].issue
      {
        var d := AnsweredMembers(done[..n], i);
        assert done[d].issue == Answered(done[..n])[i];
      }
    }
  }

  lemma {:induction false} AnsweredAll(done: seq<RR.Done>, d: nat)
    requires d < |done| && done[d].completion.entry.callback.Some?
    ensures done[d].issue in Answered(done)
    decreases |done|
  {
    if d < |done| - 1 {
      AnsweredAll(done[..|done| - 1], d);
    }
  }

  /** A device whose tracker is empty and that has told nothing. */
  ghost predicate NoRequests(n: NodeState, slots: nat) {
    0 < slots <= TWO_32 && n.requests == RT.Requests(seq(slots, _ => RT.FREE), 1) && Told(n.app) == []
  }

  /** Slot `i` still holds request `j`. */
  ghost predicate Pending(entries: seq<RT.PendingEntry>, owner: seq<nat>, asked: seq<Asked>, i: nat, j: nat) {
    && i < |entries| && i < |owner| && entries[i].active && owner[i] == j
    && j < |asked| && AskedBy(entries[i]) == asked[j]
  }

  /** On every run of a device, whatever arrives and whatever the application calls: each time
      the application is told of a request it is one it asked for, with the callback it
      gave; no request is told twice; and a request with a callback that found a slot was told
      or is still pending, and not both. */
  lemma CalledBackOnce(cfg: NodeConfig, setup: Setup, n: NodeState, slots: nat, run: seq<TimedAct>)
      returns (answers: seq<nat>, owner: seq<nat>)
    requires NoRequests(n, slots)
    ensures var n' := After(cfg, setup, n, run);
      var asked := Entered(cfg, setup, n, run);
      && Reports(Told(n'.app), answers, asked)
      && (forall i, j :: 0 <= i < j < |answers| ==> answers[i] != answers[j])
      && (forall j: nat :: j < |asked| && asked[j].callback.Some? ==>
            ((j in answers) <==> !(exists i: nat :: Pending(n'.requests.entries, owner, asked, i, j))))
  {
    hide RR.Run, Next, RT.ActiveSlots, RR.HoldsLatest, Pending, Reports, Told;
    var w0 := RR.Initial(slots);
    var n' := After(cfg, setup, n, run);
    var asked := Entered(cfg, setup, n, run);
    StartShadows(n, slots);
    var ops := RunFollows(cfg, setup, n, run, w0);
    var w := RR.Run(w0, ops, cfg.requestTimeoutMs);
    assert AllAsked(w0.issues) + asked == asked;
    RR.RequestConservation(slots, ops, cfg.requestTimeoutMs);
    answers, owner := Answered(w.done), w.owner;
    RecordedAll(w);
    AnsweredReports(w.done, w.issues);
    AnsweredDistinct(w.done);
    RR.InitialConserved(slots);
    RR.ConservedRun(w0, ops, cfg.requestTimeoutMs);
    forall j: nat | j < |asked| && asked[j].callback.Some?
      ensures (j in answers) <==> !(exists i: nat :: Pending(n'.requests.entries, owner, asked, i, j))
    {
      ToldOrPending(w, asked, j);
    }
  }

  lemma RecordedAll(w: RR.World)
    requires forall d :: 0 <= d < |w.done| ==> RR.Recorded(w, d)
    ensures forall d :: 0 <= d < |w.done| ==>
      w.done[d].issue < |w.issues| && w.done[d].completion.entry == w.issues[w.done[d].issue].entry
  {
    forall d | 0 <= d < |w.done|
      ensures w.done[d].issue < |w.issues| && w.done[d].completion.entry == w.issues[w.done[d].issue].entry
    {
      assert RR.Recorded(w, d);
    }
  }

  lemma StartShadows(n: NodeState, slots: nat)
    requires NoRequests(n, slots)
    ensures Shadows(n, RR.Initial(slots))
  {
  }

  /** An allocation with a callback is told or pending, and not both. */
  lemma ToldOrPending(w: RR.World, asked: seq<Asked>, j: nat)
    requires RR.Shape(w) && RR.Conserved(w) && asked == AllAsked(w.issues) && j < |asked| && asked[j].callback.Some?
    ensures (j in Answered(w.done)) <==> !(exists i: nat :: Pending(w.table.entries, w.owner, asked, i, j))
  {
    hide RT.ActiveSlots, RR.HoldsLatest, RR.Holding, RR.Answers;
    assert RR.Balanced(w, j);
    if j in Answered(w.done) {
      var k :| 0 <= k < |Answered(w.done)| && Answered(w.done)[k] == j;
      var d := AnsweredMembers(w.done, k);
      RR.AnswersAtLeast(w.done, d);
      if i: nat :| Pending(w.table.entries, w.owner, asked, i, j) {
        RR.HoldingAtLeast(w.table.entries, w.owner, i);
        assert false;
      }
    } else {
      if RR.Answers(w.done, j) > 0 {
        var d := SomeAnswer(w.done, j);
        assert RR.Recorded(w, d);
        AnsweredAll(w.done, d);
        assert false;
      }
      var i := SomeSlot(w.table.entries, w.owner, j);
      SlotAsked(w, i);
      assert Pending(w.table.entries, w.owner, asked, i, j);
    }
  }

  lemma SlotAsked(w: RR.World, i: nat)
    requires RR.Shape(w) && RR.IdInv(w) && i < |w.owner| && w.table.entries[i].active
    ensures w.owner[i] < |w.issues| && w.table.entries[i] == w.issues[w.owner[i]].entry
  {
    assert RR.HoldsLatest(w, i);
  }

  lemma {:induction false} SomeAnswer(done: seq<RR.Done>, j: nat) returns (d: nat)
    requires RR.Answers(done, j) > 0
    ensures d < |done| && done[d].issue == j
    decreases |done|
  {
    d := |done| - 1;
    if done[d].issue != j {
      d := SomeAnswer(done[..|done| - 1], j);
    }
  }

  lemma {:induction false} SomeSlot(entries: seq<RT.PendingEntry>, owner: seq<nat>, j: nat) returns (i: nat)
    requires |entries| == |owner| && RR.Holding(entries, owner, j) > 0
    ensures i < |entries| && entries[i].active && owner[i] == j
    decreases |entries|
  {
    i := |entries| - 1;
    if !(entries[i].active && owner[i] == j) {
      i := SomeSlot(entries[..|entries| - 1], owner[..|entries| - 1], j);
    }
  }
}
