/** The provider boots again: the consumer, which still has the service from the boot before, hears
that it was lost and found, and then keeps it. */
module LeaseReboot {
  import opened Words
  import opened SdMessages
  import opened DiscoverySpec
  import opened DiscoveryLog
  import opened Node
  import opened NodeEffects
  import opened LeaseSystem
  import opened LeaseProvider
  import opened LeaseConsumer
  import opened Leases
  import opened LeaseBefore
  import EM = EventManager
  import RT = RequestTracker

  // --------------------------------------------------- what the application is told

  /** The callbacks among the outputs of an operation. */
  function Callbacks(out: seq<Output>): seq<AppEvent> {
    if out == [] then []
    else
      var o := out[|out| - 1];
      Callbacks(out[..|out| - 1]) + (if o.Broadcast? || o.Unicast? || o.PeerExpired? then [] else [Discovered(o)])
  }

  lemma {:induction false} CarriedCallbacks(cfg: NodeConfig, n: NodeState, out: seq<Output>)
    ensures CarryAll(cfg, n, out).app == n.app + Callbacks(out)
    decreases |out|
  {
    hide SdFrame, Payload;
    if out != [] {
      CarriedCallbacks(cfg, n, out[..|out| - 1]);
    }
  }

  lemma StepTells(cfg: NodeConfig, n: NodeState, e: Event, now: u32)
    ensures SdStep(cfg, n, e, now).app == n.app + Callbacks(Step(cfg.sd, n.sd, e, now).1)
    ensures SdStep(cfg, n, e, now).sd == Step(cfg.sd, n.sd, e, now).0
  {
    hide Step, CarryAll, Callbacks;
    CarriedCallbacks(cfg, n.(sd := Step(cfg.sd, n.sd, e, now).0), Step(cfg.sd, n.sd, e, now).1);
    SdStepCarries(cfg, n, e, now);
  }

  /** An event of the service since the application log had `from` entries. */
  ghost predicate ToldLost(l: Link, app: seq<AppEvent>, from: nat, i: nat) {
    from <= i < |app| && app[i] == Discovered(LostCallback(l.sid))
  }

  ghost predicate ToldFound(l: Link, app: seq<AppEvent>, from: nat, i: nat) {
    from <= i < |app| && app[i] == Discovered(FoundCallback(l.sid, l.addrP))
  }

  ghost predicate Lost(l: Link, app: seq<AppEvent>, from: nat) {
    exists i: nat :: ToldLost(l, app, from, i)
  }

  /** Lost, and found after it. */
  ghost predicate LostAndFound(l: Link, app: seq<AppEvent>, from: nat) {
    exists i: nat, j: nat :: i < j && ToldLost(l, app, from, i) && ToldFound(l, app, from, j)
  }

  /** Unless it has the old service still, the application was told that it was lost; and if it
      has the new one, that it was found after that. */
  ghost predicate Noted(l: Link, sd: Sd, app: seq<AppEvent>, from: nat) {
    && (Stale(l, sd) || Lost(l, app, from))
    && (Following(l, sd) ==> LostAndFound(l, app, from))
  }

  lemma NotedMore(l: Link, sd: Sd, app: seq<AppEvent>, app': seq<AppEvent>, from: nat)
    requires Noted(l, sd, app, from) && app <= app'
    ensures Noted(l, sd, app', from)
  {
    hide Stale, Following;
    LostMore(l, app, app', from);
  }

  lemma LostMore(l: Link, app: seq<AppEvent>, app': seq<AppEvent>, from: nat)
    requires app <= app'
    ensures Lost(l, app, from) ==> Lost(l, app', from)
    ensures LostAndFound(l, app, from) ==> LostAndFound(l, app', from)
  {
    if i: nat :| ToldLost(l, app, from, i) {
      assert ToldLost(l, app', from, i);
    }
    if i: nat, j: nat :| i < j && ToldLost(l, app, from, i) && ToldFound(l, app, from, j) {
      assert ToldLost(l, app', from, i) && ToldFound(l, app', from, j);
    }
  }

  // ------------------------------------------------------------- one operation

  /** How the consumer may stand to the service: as before, not at all, or as found. */
  ghost predicate Standing(l: Link, sd: Sd) {
    DistinctConsumers(sd.consumers) && (ProviderOf(sd.consumers, l.sid) == None || Stale(l, sd) || Following(l, sd))
  }

  /** The old service ends with a lost callback, alone or before the found callback of the new. */
  ghost predicate OldEnds(l: Link, sd': Sd, out: seq<Output>) {
    || Stale(l, sd')
    || (!Following(l, sd') && LostCallback(l.sid) in out)
    || (Following(l, sd') && out == [LostCallback(l.sid), FoundCallback(l.sid, l.addrP)])
  }

  /** The new one begins with a found callback, and the old one never comes back. */
  ghost predicate Turns(l: Link, sd: Sd, sd': Sd, out: seq<Output>) {
    && (Stale(l, sd) ==> OldEnds(l, sd', out))
    && (ProviderOf(sd.consumers, l.sid) == None && Following(l, sd') ==> out == [FoundCallback(l.sid, l.addrP)])
    && (if Stale(l, sd) then Stale(l, sd') ==> Expiry(l, sd') == Expiry(l, sd) else !Stale(l, sd'))
  }

  /** When the consumer's lease ends, on its clock. */
  ghost function Expiry(l: Link, sd: Sd): u32
    requires Stale(l, sd)
  {
    sd.consumers[ConsumerIndex(sd.consumers, l.sid)].ttlExpiryMs
  }

  /** The entry of the service stays. */
  lemma SameTurns(l: Link, sd: Sd, sd': Sd, out: seq<Output>)
    requires DistinctConsumers(sd'.consumers) && |sd.consumers| <= |sd'.consumers|
    requires var i := ConsumerIndex(sd.consumers, l.sid);
      if i < |sd.consumers| then sd'.consumers[i] == sd.consumers[i]
      else forall k :: 0 <= k < |sd'.consumers| && sd'.consumers[k].serviceId == l.sid ==>
        sd'.consumers[k].state != FOUND
    ensures Turns(l, sd, sd', out)
  {
    var i := ConsumerIndex(sd.consumers, l.sid);
    if i < |sd.consumers| {
      ConsumerIndexIs(sd'.consumers, i);
    }
  }

  lemma OfferTurns(l: Link, sd: Sd, now: u32)
    requires Standing(l, sd)
    ensures var (sd', out) := HandleOffer(sd, l.sid, l.major, l.ttl, l.session, l.addrP, now);
      Turns(l, sd, sd', out)
  {
    hide Wrap32, FlagResubscribe;
    var s, s' := sd.consumers, HandleOffer(sd, l.sid, l.major, l.ttl, l.session, l.addrP, now).0.consumers;
    var i := ConsumerIndex(s, l.sid);
    if OfferRelevant(s, l.sid, l.major, l.ttl) {
      assert s'[i].serviceId == l.sid;
      SameConsumerIndex(s, s', l.sid);
    }
  }

  lemma {:induction false} LostAmong(s: seq<ConsumerEntry>, now: u32, i: nat)
    requires i < |s| && TtlExpired(s[i], now)
    ensures LostCallback(s[i].serviceId) in TtlsOutput(s, now)
    decreases |s|
  {
    hide TtlExpired;
    if i < |s| - 1 {
      LostAmong(s[..|s| - 1], now, i);
    }
  }

  lemma TtlTurns(l: Link, sd: Sd, now: u32)
    requires Standing(l, sd)
    ensures var (sd', out) := Step(l.c.sd, sd, ProcessTtls, now);
      Turns(l, sd, sd', out) && (Stale(l, sd) && Stale(l, sd') ==> !TimeAfter(now, Expiry(l, sd)))
  {
    hide TimeAfter, TtlsOutput;
    var (sd', out) := Step(l.c.sd, sd, ProcessTtls, now);
    ConsumerKeys(l.c.sd, sd, ProcessTtls, now);
    SameConsumerIndex(sd.consumers, sd'.consumers, l.sid);
    var i := ConsumerIndex(sd.consumers, l.sid);
    if i < |sd.consumers| && TtlExpired(sd.consumers[i], now) {
      LostAmong(sd.consumers, now, i);
    }
  }

  /** A message or a pass, or a call about another service or for one the consumer has not. */
  lemma OtherTurns(l: Link, sd: Sd, e: Event, now: u32)
    requires Standing(l, sd) && !e.ProcessTtls? && !(e.RxOffer? && e.sid == l.sid)
    requires !(e.FindCall? && e.sid == l.sid && ProviderOf(sd.consumers, l.sid).Some?)
    ensures var (sd', out) := Step(l.c.sd, sd, e, now);
      Turns(l, sd, sd', out)
  {
    hide Turns, Stale, Following, FlagResubscribe, RenewalsStepped, OffersStepped, Offer, StopOffer, SubscribeTo,
      UnsubscribeFrom, HandleAck,
      Reboot, OffersOutput, RenewalsOutput, FindReplies, FindsOutput, NextRetry, TimeAfterOrEq;
    ConsumersDistinct(l.c.sd, sd, e, now);
    var (sd', out) := Step(l.c.sd, sd, e, now);
    var i := ConsumerIndex(sd.consumers, l.sid);
    if i < |sd.consumers| && sd'.consumers[i] == sd.consumers[i] {
      SameTurns(l, sd, sd', out);
    } else {
      StaysLost(l, sd, e, now);
    }
  }

  /** Without the service only an offer of it brings it. */
  lemma StaysLost(l: Link, sd: Sd, e: Event, now: u32)
    requires DistinctConsumers(sd.consumers) && ProviderOf(sd.consumers, l.sid) == None
      && !(e.RxOffer? && e.sid == l.sid)
    ensures ProviderOf(Step(l.c.sd, sd, e, now).0.consumers, l.sid) == None
    ensures Turns(l, sd, Step(l.c.sd, sd, e, now).0, Step(l.c.sd, sd, e, now).1)
  {
    hide Step, Wrap32, Following;
    var none := l.(before := None);
    assert Waiting(none, sd);
    WaitingStep(none, sd, e, now);
    NoneTurns(l, sd, Step(l.c.sd, sd, e, now).0, Step(l.c.sd, sd, e, now).1);
  }

  lemma NoneTurns(l: Link, sd: Sd, sd': Sd, out: seq<Output>)
    requires ProviderOf(sd.consumers, l.sid) == None && ProviderOf(sd'.consumers, l.sid) == None
    ensures Turns(l, sd, sd', out)
  {
  }

  lemma StepTurns(l: Link, sd: Sd, e: Event, now: u32)
    requires Standing(l, sd) && Trusted(l, e)
      && !(e.FindCall? && e.sid == l.sid && ProviderOf(sd.consumers, l.sid).Some?)
    ensures Turns(l, sd, Step(l.c.sd, sd, e, now).0, Step(l.c.sd, sd, e, now).1)
  {
    hide Standing, Turns, HandleOffer;
    if e.ProcessTtls? {
      TtlTurns(l, sd, now);
    } else if e.RxOffer? && e.sid == l.sid {
      OfferTurns(l, sd, now);
    } else {
      OtherTurns(l, sd, e, now);
    }
  }

  // ------------------------------------------------------------- the application log

  lemma {:induction false} CallbackAmong(out: seq<Output>, o: Output) returns (i: nat)
    requires o in out && !o.Broadcast? && !o.Unicast? && !o.PeerExpired?
    ensures i < |Callbacks(out)| && Callbacks(out)[i] == Discovered(o)
    decreases |out|
  {
    var n := |out| - 1;
    if o == out[n] {
      i := |Callbacks(out[..n])|;
    } else {
      assert o in out[..n];
      i := CallbackAmong(out[..n], o);
    }
  }

  lemma TwoCallbacks(a: Output, b: Output)
    requires a.LostCallback? && b.FoundCallback?
    ensures Callbacks([a, b]) == [Discovered(a), Discovered(b)] && Callbacks([b]) == [Discovered(b)]
  {
    assert [a, b][..1] == [a] && [a][..0] == [] && [b][..0] == [] && Callbacks([]) == [];
    assert Callbacks([a]) == [Discovered(a)];
  }

  /** An operation and what it tells keep the note. */
  lemma NotedStep(l: Link, sd: Sd, app: seq<AppEvent>, from: nat, e: Event, now: u32)
    requires Noted(l, sd, app, from) && from <= |app| && Standing(l, sd) && Trusted(l, e)
    requires !(e.FindCall? && e.sid == l.sid && ProviderOf(sd.consumers, l.sid).Some?)
    ensures Noted(l, Step(l.c.sd, sd, e, now).0, app + Callbacks(Step(l.c.sd, sd, e, now).1), from)
  {
    hide Step, Stale, Following, Callbacks, Trusted;
    var (sd', out) := Step(l.c.sd, sd, e, now);
    var app' := app + Callbacks(out);
    StepTurns(l, sd, e, now);
    LostMore(l, app, app', from);
    if Stale(l, sd) {
      OldEnded(l, sd', app, out, from);
    } else if Following(l, sd') && !Following(l, sd) {
      TwoCallbacks(LostCallback(l.sid), FoundCallback(l.sid, l.addrP));
      var i: nat :| ToldLost(l, app, from, i);
      assert ToldLost(l, app', from, i) && ToldFound(l, app', from, |app|);
    }
  }

  lemma OldEnded(l: Link, sd': Sd, app: seq<AppEvent>, out: seq<Output>, from: nat)
    requires OldEnds(l, sd', out) && from <= |app|
    ensures Noted(l, sd', app + Callbacks(out), from)
  {
    hide Stale, Following, Callbacks;
    var app' := app + Callbacks(out);
    NotBoth(l, sd');
    if Following(l, sd') && out == [LostCallback(l.sid), FoundCallback(l.sid, l.addrP)] {
      TwoCallbacks(LostCallback(l.sid), FoundCallback(l.sid, l.addrP));
      assert ToldLost(l, app', from, |app|) && ToldFound(l, app', from, |app| + 1);
    } else if LostCallback(l.sid) in out {
      var i := CallbackAmong(out, LostCallback(l.sid));
      assert ToldLost(l, app', from, |app| + i);
    }
  }

  lemma NotBoth(l: Link, sd: Sd)
    ensures !(Stale(l, sd) && Following(l, sd))
  {
  }

  // ---------------------------------------------------------- the consumer's actions

  /** Receiving a frame tells the application what the operation it causes tells. */
  lemma ReceiveTells(cfg: NodeConfig, setup: Setup, n: NodeState, source: Address, d: Bytes, now: u32)
    ensures var n' := Receive(cfg, setup, n, source, d, now);
      match CausedBy(cfg, setup, source, d)
      case None => n'.sd == n.sd && n.app <= n'.app
      case Some(e) => n'.sd == Step(cfg.sd, n.sd, e, now).0 && n'.app == n.app + Callbacks(Step(cfg.sd, n.sd, e, now).1)
  {
    hide Receive, Seen, HandleMessage, Step, Callbacks;
    ReceiveIsHandle(cfg, setup, n, source, d, now);
    if Seen(cfg, setup, source, d).Some? {
      var x := Seen(cfg, setup, source, d).value;
      HandleTells(cfg, n, source, x, now);
    }
  }

  lemma HandleTells(cfg: NodeConfig, n: NodeState, source: Address, x: SdSeen, now: u32)
    ensures var n' := HandleMessage(cfg, n, source, x.client, x.result, x.m, now);
      match Caused(source, x)
      case None => n'.sd == n.sd && n'.app == n.app
      case Some(e) => n'.sd == Step(cfg.sd, n.sd, e, now).0 && n'.app == n.app + Callbacks(Step(cfg.sd, n.sd, e, now).1)
  {
    hide SdStep, Step, Callbacks, EM.Subscribe, EM.Unsubscribe, SdFrame, Payload;
    if Caused(source, x).Some? {
      StepTells(cfg, HandleBase(cfg, n, source, x.m), Caused(source, x).value, now);
    }
  }

  /** The note, at the consumer. */
  ghost predicate NotedAt(l: Link, n: NodeState, from: nat) {
    Noted(l, n.sd, n.app, from) && from <= |n.app|
  }

  /** The old service was not renewed. */
  ghost predicate OldRuns(l: Link, sd: Sd, sd': Sd) {
    if Stale(l, sd) then Stale(l, sd') ==> Expiry(l, sd') == Expiry(l, sd) else !Stale(l, sd')
  }

  lemma OneOperation(l: Link, n: NodeState, n': NodeState, from: nat, e: Event, now: u32)
    requires NotedAt(l, n, from) && Standing(l, n.sd) && Trusted(l, e)
    requires !(e.FindCall? && e.sid == l.sid && ProviderOf(n.sd.consumers, l.sid).Some?)
    requires n'.sd == Step(l.c.sd, n.sd, e, now).0 && n'.app == n.app + Callbacks(Step(l.c.sd, n.sd, e, now).1)
    ensures NotedAt(l, n', from) && OldRuns(l, n.sd, n'.sd)
    ensures e.ProcessTtls? && Stale(l, n.sd) && Stale(l, n'.sd) ==> !TimeAfter(now, Expiry(l, n.sd))
  {
    hide Step, Noted, Stale, Standing, Trusted, Callbacks, Following, OldEnds, TimeAfter, Expiry;
    NotedStep(l, n.sd, n.app, from, e, now);
    StepTurns(l, n.sd, e, now);
    if e.ProcessTtls? {
      TtlTurns(l, n.sd, now);
    }
  }

  lemma NotedReceives(l: Link, n: NodeState, from: nat, source: Address, d: Bytes, now: u32)
    requires NotedAt(l, n, from) && Standing(l, n.sd)
    requires CausedBy(l.c, l.setupC, source, d).Some? ==> Trusted(l, CausedBy(l.c, l.setupC, source, d).value)
    ensures var n' := Receive(l.c, l.setupC, n, source, d, now);
      NotedAt(l, n', from) && OldRuns(l, n.sd, n'.sd)
  {
    hide Receive, Seen, Step, Noted, Stale, Standing, Trusted, Callbacks, Expiry, TimeAfter;
    ReceiveTells(l.c, l.setupC, n, source, d, now);
    var n' := Receive(l.c, l.setupC, n, source, d, now);
    var e := CausedBy(l.c, l.setupC, source, d);
    if e.Some? {
      NoFindCaused(l, source, d);
      OneOperation(l, n, n', from, e.value, now);
    } else {
      NotedMore(l, n.sd, n.app, n'.app, from);
    }
  }

  lemma NoFindCaused(l: Link, source: Address, d: Bytes)
    ensures CausedBy(l.c, l.setupC, source, d).Some? ==> !CausedBy(l.c, l.setupC, source, d).value.FindCall?
  {
    hide Seen;
  }

  lemma NotedCalls(l: Link, n: NodeState, from: nat, e: Event, now: u32)
    requires NotedAt(l, n, from) && Standing(l, n.sd) && IsCall(e)
    requires !(e.FindCall? && e.sid == l.sid && ProviderOf(n.sd.consumers, l.sid).Some?)
    ensures var n' := SdStep(l.c, n, e, now);
      NotedAt(l, n', from) && OldRuns(l, n.sd, n'.sd)
  {
    hide SdStep, Step, Noted, Stale, Standing, Callbacks, Expiry, TimeAfter;
    StepTells(l.c, n, e, now);
    OneOperation(l, n, SdStep(l.c, n, e, now), from, e, now);
  }

  /** One pass of a cycle. */
  lemma NotedPass(l: Link, n: NodeState, from: nat, e: Event, now: u32)
    requires NotedAt(l, n, from) && Waiting(l, n.sd)
      && (e.ProcessOffers? || e.ProcessRenewals? || e.ProcessTtls? || e.ProcessFinds?)
    ensures var n' := SdStep(l.c, n, e, now);
      && NotedAt(l, n', from) && OldRuns(l, n.sd, n'.sd) && Waiting(l, n'.sd)
      && (e.ProcessTtls? && Stale(l, n.sd) && Stale(l, n'.sd) ==> !TimeAfter(now, Expiry(l, n.sd)))
  {
    hide SdStep, Step, Noted, Stale, Callbacks, Expiry, TimeAfter, Following;
    StepTells(l.c, n, e, now);
    OneOperation(l, n, SdStep(l.c, n, e, now), from, e, now);
    WaitingStep(l, n.sd, e, now);
  }

  /** A cycle before the consumer has the new service: the old one outlives it only within its
      lease. */
  lemma NotedCycle(l: Link, n: NodeState, from: nat, now: u32)
    requires NotedAt(l, n, from) && Waiting(l, n.sd)
    ensures var n' := Housekeeping(l.c, n, now);
      && NotedAt(l, n', from) && OldRuns(l, n.sd, n'.sd) && Waiting(l, n'.sd)
      && (Stale(l, n.sd) && Stale(l, n'.sd) ==> !TimeAfter(now, Expiry(l, n.sd)))
  {
    hide SdStep, Noted, Stale, Expiry, TimeAfter, EM.Evict, Waiting;
    var n1 := EvictRequests(n, now);
    var n2 := n1.(events := EM.Evict(n1.events, now));
    NotedMore(l, n.sd, n.app, n2.app, from);
    var n3 := SdStep(l.c, n2, ProcessOffers, now);
    NotedPass(l, n2, from, ProcessOffers, now);
    var n4 := SdStep(l.c, n3, ProcessRenewals, now);
    NotedPass(l, n3, from, ProcessRenewals, now);
    var n5 := SdStep(l.c, n4, ProcessTtls, now);
    NotedPass(l, n4, from, ProcessTtls, now);
    NotedPass(l, n5, from, ProcessFinds, now);
  }

  // ------------------------------------------------------------------ over whole runs

  /** The provider has booted again and offers nothing yet, and no packet on its way to the
      consumer offers the service; the consumer has it from the boot before, until `end`. */
  ghost predicate Rebooted(l: Link, s: System, slots: nat, end: nat) {
    && Usable(l) && Bounds(l) && !l.sub && s.p == PoweredOn(l.addrP, slots) && s.cycleP <= s.now && Timely(l, s)
    && DistinctConsumers(s.c.sd.consumers) && Stale(l, s.c.sd) && Expiry(l, s.c.sd) == Wrap32(end + l.offC)
    && s.cycleC <= end <= s.now + 1000 * l.ttl
    && (forall f :: f in s.net ==> OldPacket(l, f))
  }

  ghost predicate OldPacket(l: Link, f: InFlight) {
    if f.toConsumer then f.source == l.addrP && LeaseBefore.Silent(l, f.frame) else f.source == l.addrC
  }

  /** Such a state comes out of the lease theorem's: the provider loses its tables while no
      offer is on its way. Its new boot has another session. */
  lemma RebootFromLease(first: Link, s: System, g: Times, session: u16, slots: nat)
    requires Inv(first, s, g) && s.cycleC <= s.now && session != first.session && forall f ::
      f in s.net && f.toConsumer ==> LeaseBefore.Silent(first, f.frame)
    ensures Rebooted(first.(session := session, before := Some(first.session), sub := false),
              s.(p := PoweredOn(first.addrP, slots), cycleP := s.now), slots, g.offerEnd)
  {
    hide Seen, Wrap32;
    var l := first.(session := session, before := Some(first.session), sub := false);
    OfferRuns(first, s, g);
    forall f | f in s.net
      ensures OldPacket(l, f)
    {
      assert Good(first, f);
    }
  }

  /** The old service outlives no cycle after its lease. */
  ghost predicate OldUntil(l: Link, s: System, end: nat) {
    Stale(l, s.c.sd) ==> Expiry(l, s.c.sd) == Wrap32(end + l.offC) && s.cycleC <= end
  }

  ghost predicate Recovering(l: Link, s: System, g: Times, from: nat, end: nat) {
    OnCourse(l, s, g) && NotedAt(l, s.c, from) && (l.gapC < TWO_31 ==> OldUntil(l, s, end))
      && end <= s.now + 1000 * l.ttl
  }

  lemma StartsRecovering(l: Link, s: System, slots: nat, end: nat)
    requires Rebooted(l, s, slots, end)
    ensures Recovering(l, s, Times(0, 0, 0, 0), |s.c.app|, end)
  {
    hide Seen, Wrap32, Usable, Bounds, Timely;
    NotBoth(l, s.c.sd);
    forall f | f in s.net
      ensures Good(l, f) && (f.toConsumer ==> LeaseBefore.Silent(l, f.frame))
    {
      assert OldPacket(l, f);
    }
  }

  lemma WaitsOrFollows(l: Link, s: System, g: Times)
    requires OnCourse(l, s, g)
    ensures Waiting(l, s.c.sd) || (Inv(l, s, g) && Following(l, s.c.sd))
    ensures Standing(l, s.c.sd) && NetGood(l, s.net) && !l.sub && Timely(l, s) && l.ttl > 0
  {
    hide NetGood, Usable, Timely, Stale, OfferLease, LeaseBefore.Silent, Offering;
  }

  /** Under the lease nothing is left to note. */
  lemma NotedUnderLease(l: Link, n: NodeState, n': NodeState, from: nat)
    requires NotedAt(l, n, from) && Following(l, n.sd) && Following(l, n'.sd) && n.app <= n'.app
    ensures NotedAt(l, n', from) && !Stale(l, n'.sd)
  {
    hide Stale, Following;
    NotBoth(l, n.sd);
    NotBoth(l, n'.sd);
    LostMore(l, n.app, n'.app, from);
  }

  /** The consumer's part of one action. */
  ghost predicate ConsumerNoted(l: Link, s: System, s': System, from: nat) {
    NotedAt(l, s'.c, from) && OldRuns(l, s.c.sd, s'.c.sd)
  }

  lemma LeasedNoted(l: Link, s: System, a: Action, g: Times, from: nat)
    requires OnCourse(l, s, g) && Inv(l, s, g) && NotedAt(l, s.c, from) && Enabled(l, s, a) && Timely(l, Next(l, s, a))
    ensures ConsumerNoted(l, s, Next(l, s, a), from) && !Stale(l, Next(l, s, a).c.sd)
  {
    hide Inv, Timely, Next, Enabled, Stale, Noted, OnCourse;
    LeaseStep(l, s, a, g);
    InvFollows(l, s, g);
    InvFollows(l, Next(l, s, a), NextTimes(l, s, a, g));
    NothingLost(l, s.c, Next(l, s, a).c);
    NotBoth(l, s.c.sd);
    NotedUnderLease(l, s.c, Next(l, s, a).c, from);
  }

  lemma InvFollows(l: Link, s: System, g: Times)
    requires Inv(l, s, g)
    ensures Following(l, s.c.sd)
  {
  }

  lemma WaitingNoted(l: Link, s: System, a: Action, g: Times, from: nat)
    requires OnCourse(l, s, g) && Waiting(l, s.c.sd) && NotedAt(l, s.c, from) && Enabled(l, s, a)
      && Timely(l, Next(l, s, a))
    ensures ConsumerNoted(l, s, Next(l, s, a), from)
    ensures a.HousekeepC? && Stale(l, s.c.sd) && Stale(l, Next(l, s, a).c.sd) ==>
      !TimeAfter(ClockC(l, s), Expiry(l, s.c.sd))
  {
    hide OnCourse, Timely, NotedAt, Waiting, Standing, NetGood, Receive, Housekeeping, SdStep, BenignToP, BenignToC,
      CausedBy, Trusted,
      Stale, Expiry, TimeAfter, FirstOffer, FirstSubscription;
    WaitsOrFollows(l, s, g);
    match a
    case DeliverToC(i) =>
      NetTrusted(l, s, i);
      NotedReceives(l, s.c, from, s.net[i].source, s.net[i].frame, ClockC(l, s));
    case ForeignToC(source, frame) =>
      ForeignTrusted(l, source, frame);
      NotedReceives(l, s.c, from, source, frame, ClockC(l, s));
    case HousekeepC =>
      NotedCycle(l, s.c, from, ClockC(l, s));
    case CallC(e) =>
      NotedCalls(l, s.c, from, e, ClockC(l, s));
    case _ =>
      SameConsumer(l, s, a);
  }

  lemma SameConsumer(l: Link, s: System, a: Action)
    requires Enabled(l, s, a) && !a.DeliverToC? && !a.ForeignToC? && !a.HousekeepC? && !a.CallC?
    ensures Next(l, s, a).c == s.c && Next(l, s, a).cycleC == s.cycleC
  {
    hide Receive, Housekeeping, SdStep, BenignToP;
  }

  lemma ClockRuns(l: Link, s: System, a: Action)
    requires Enabled(l, s, a)
    ensures s.now <= Next(l, s, a).now && Next(l, s, a).cycleC == (if a.HousekeepC? then s.now else s.cycleC)
  {
    hide Receive, Housekeeping, SdStep, BenignToP, BenignToC;
  }

  /** The cycle that keeps the old service comes before its lease ends. */
  lemma CycleWithin(l: Link, s: System, end: nat)
    requires Stale(l, s.c.sd) && Expiry(l, s.c.sd) == Wrap32(end + l.offC) && s.cycleC <= end <= s.now + 1000 * l.ttl
    requires l.gapC < TWO_31 && Timely(l, s) && !TimeAfter(ClockC(l, s), Expiry(l, s.c.sd))
    ensures s.now <= end
  {
    hide Stale, Expiry, Wrap32, TimeAfter;
    ClockComparison(s.now + l.offC, end + l.offC);
  }

  lemma RecoverStep(l: Link, s: System, a: Action, g: Times, from: nat, end: nat) returns (g': Times)
    requires Recovering(l, s, g, from, end) && Enabled(l, s, a) && Timely(l, Next(l, s, a))
    ensures Recovering(l, Next(l, s, a), g', from, end)
  {
    hide OnCourse, Inv, Timely, Next, Enabled, NotedAt, Waiting, Stale, Following, Standing, NetGood, Expiry,
      TimeAfter, Wrap32;
    WaitsOrFollows(l, s, g);
    ClockRuns(l, s, a);
    g' := CourseStep(l, s, a, g);
    if Waiting(l, s.c.sd) {
      WaitingNoted(l, s, a, g, from);
      if a.HousekeepC? && l.gapC < TWO_31 && Stale(l, Next(l, s, a).c.sd) {
        CycleWithin(l, s, end);
      }
    } else {
      LeasedNoted(l, s, a, g, from);
    }
  }

  lemma {:induction false} RecoverRun(l: Link, s: System, run: seq<Action>, g: Times, from: nat, end: nat)
      returns (g': Times)
    requires Recovering(l, s, g, from, end) && IsRun(l, s, run)
    ensures Recovering(l, After(l, s, run), g', from, end)
    decreases |run|
  {
    hide Recovering, Timely, Next, Enabled;
    g' := g;
    if run != [] {
      var g1 := RecoverStep(l, s, run[0], g, from, end);
      g' := RecoverRun(l, Next(l, s, run[0]), run[1..], g1, from, end);
    }
  }

  /** The consumer has the service, and not from the boot before. */
  ghost predicate HasNew(l: Link, s: System) {
    ProviderOf(s.c.sd.consumers, l.sid).Some? && !Stale(l, s.c.sd)
  }

  /** On every timely run after the provider's reboot: the consumer has the old service at most
      one cycle beyond its lease; once it has not, the application was told that it was lost;
      once it has the new one, that it was found after that; and then it keeps it at the
      provider's address for the rest of the run, with no further loss. */
  lemma RebootRecovered(l: Link, start: System, slots: nat, end: nat, before: seq<Action>, after: seq<Action>)
    requires Rebooted(l, start, slots, end) && IsRun(l, start, before) && IsRun(l, After(l, start, before), after)
    ensures var s := After(l, start, before);
      var s' := After(l, s, after);
      && (Stale(l, s.c.sd) && l.gapC < TWO_31 ==> s.now <= end + l.gapC)
      && (!Stale(l, s.c.sd) ==> Lost(l, s.c.app, |start.c.app|))
      && (HasNew(l, s) ==> LostAndFound(l, s.c.app, |start.c.app|) && HasNew(l, s') && NewKept(l, s, s'))
  {
    hide Rebooted, IsRun, After, OnCourse, Inv, Stale, Following, Lost, LostAndFound, Expiry, Timely, Wrap32, NewKept;
    var from := |start.c.app|;
    StartsRecovering(l, start, slots, end);
    var g := RecoverRun(l, start, before, Times(0, 0, 0, 0), from, end);
    var s := After(l, start, before);
    WaitsOrFollows(l, s, g);
    OnTime(l, s);
    if HasNew(l, s) {
      FoundIsLeased(l, s, g);
      InvFollows(l, s, g);
      NewStays(l, s, after, g);
    }
  }

  lemma OnTime(l: Link, s: System)
    requires Timely(l, s)
    ensures s.now <= s.cycleC + l.gapC
  {
  }

  ghost predicate NewKept(l: Link, s: System, s': System) {
    && ProviderOf(s.c.sd.consumers, l.sid) == Some(l.addrP) && ProviderOf(s'.c.sd.consumers, l.sid) == Some(l.addrP)
    && s.c.app <= s'.c.app && Discovered(LostCallback(l.sid)) !in s'.c.app[|s.c.app|..]
  }

  lemma NewStays(l: Link, s: System, run: seq<Action>, g: Times)
    requires Inv(l, s, g) && IsRun(l, s, run)
    ensures HasNew(l, After(l, s, run)) && NewKept(l, s, After(l, s, run))
  {
    hide IsRun, After, Inv, NoLoss, Stale;
    var g' := RunKeepsLeases(l, s, run, g);
    OfferLeaseHolds(l, s, run, g);
    InvFound(l, s, g);
    InvFollows(l, After(l, s, run), g');
    NotBoth(l, After(l, s, run).c.sd);
  }
}
