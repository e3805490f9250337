/** Runs from empty tables, with the default configuration, on which the program does what
nobody would expect. Each is an input at which a property named elsewhere fails. */
module Surprises {
  import opened Words
  import opened SdMessages
  import opened DiscoverySpec
  import opened DiscoveryLog
  import opened CallbackView
  import opened SessionIds
  import opened FindBackoff
  import opened Subscriptions
  import E2E = E2EProtection

  const DEFAULTS := SdConfig(7, 16, 32, 512, 5, 10, 3, 100, 2, 50)

  /** The run as a chain of states. */
  ghost predicate Chain(states: seq<Sd>, outs: seq<seq<Output>>, run: seq<Timed>) {
    && |states| == |run| + 1 && |outs| == |run|
    && forall k :: 0 <= k < |run| ==> Step(DEFAULTS, states[k], run[k].e, run[k].now) == (states[k + 1], outs[k])
  }

  function Flat(outs: seq<seq<Output>>): seq<Output> {
    if outs == [] then [] else outs[0] + Flat(outs[1..])
  }

  lemma {:induction false} ChainRuns(states: seq<Sd>, outs: seq<seq<Output>>, run: seq<Timed>)
    requires Chain(states, outs, run)
    ensures Run(DEFAULTS, states[0], run) == (states[|run|], Flat(outs))
    decreases |run|
  {
    hide Step;
    if run != [] {
      assert Step(DEFAULTS, states[0], run[0].e, run[0].now) == (states[1], outs[0]);
      ChainRuns(states[1..], outs[1..], run[1..]);
    }
  }

  // --------------------------------------------------------- find on a FOUND service

  function Knowing(ce: ConsumerEntry): Sd {
    Sd([], [ce], [], [])
  }

  /** `find` on empty tables, and on a table that knows the service. */
  lemma Finding(ce: ConsumerEntry, now: u32)
    ensures Step(DEFAULTS, EMPTY, FindCall(ce.serviceId, 1), now)
      == (Knowing(Searching(NEW_CONSUMER, ce.serviceId, 1, now)), [])
    ensures Step(DEFAULTS, Knowing(ce), FindCall(ce.serviceId, 1), now)
      == (Knowing(Searching(ce, ce.serviceId, 1, now)), [])
  {
    var none: seq<ConsumerEntry> := [];
    var first := Searching(NEW_CONSUMER, ce.serviceId, 1, now);
    assert none + [first] == [first] && ConsumerIndex(none, ce.serviceId) == 0;
    assert ConsumerIndex([ce], ce.serviceId) == 0;
    assert [ce][0 := Searching(ce, ce.serviceId, 1, now)] == [Searching(ce, ce.serviceId, 1, now)];
  }

  function Heard(ce: ConsumerEntry, session: u16, provider: Address, now: u32): ConsumerEntry {
    ce.(addr := provider, ttlExpiryMs := Wrap32(now + 5000), session := session, sessionValid := true, state := FOUND)
  }

  /** An offer for the one service the table knows. */
  lemma Hearing(ce: ConsumerEntry, session: u16, provider: Address, now: u32)
    requires ce.expectedMajor == 1
    ensures Step(DEFAULTS, Knowing(ce), RxOffer(ce.serviceId, 1, 5, session, provider), now)
      == (Knowing(Heard(ce, session, provider, now)),
      if Reboot(ce, session) then [LostCallback(ce.serviceId), FoundCallback(ce.serviceId, provider)]
      else if ce.state != FOUND || ce.addr != provider then [FoundCallback(ce.serviceId, provider)] else [])
  {
    hide Wrap32, Reboot;
    assert ConsumerIndex([ce], ce.serviceId) == 0 && FlagResubscribe([], ce.serviceId, now) == [];
    assert [ce][0 := Heard(ce, session, provider, now)] == [Heard(ce, session, provider, now)];
  }

  const FOUND_1 := ConsumerEntry(1, 1, FOUND, [9], 5010, 0, 0, 3, true)

  const FIND_1 := Timed(FindCall(1, 1), 0)
  const OFFER_1 := Timed(RxOffer(1, 1, 5, 3, [9]), 10)

  /** A service searched and found. */
  lemma Found()
    ensures Run(DEFAULTS, EMPTY, [FIND_1, OFFER_1]) == (Sd([], [FOUND_1], [], []), [FoundCallback(1, [9])])
  {
    hide Run, Step;
    var searching := Searching(NEW_CONSUMER, 1, 1, 0);
    Finding(FOUND_1, 0);
    Hearing(searching, 3, [9], 10);
    var states := [EMPTY, Knowing(searching), Knowing(FOUND_1)];
    var outs: seq<seq<Output>> := [[], [FoundCallback(1, [9])]];
    assert Chain(states, outs, [FIND_1, OFFER_1]);
    ChainRuns(states, outs, [FIND_1, OFFER_1]);
    FlatTwo(outs);
    assert outs[0] + outs[1] == [FoundCallback(1, [9])];
  }

  /** Find, offer, find: the application was told of the service, and `get_provider_address`
      knows none. */
  lemma FoundAndForgotten()
    ensures var (sd, log) := Run(DEFAULTS, EMPTY, [FIND_1, OFFER_1, Timed(FindCall(1, 1), 20)]);
      Belief(log, 1) == Some([9]) && ProviderOf(sd.consumers, 1) == None
  {
    hide Run, Select, Step;
    var again := Timed(FindCall(1, 1), 20);
    Found();
    Finding(FOUND_1, 20);
    RunSnoc(DEFAULTS, EMPTY, [FIND_1, OFFER_1], again);
    assert [FIND_1, OFFER_1] + [again] == [FIND_1, OFFER_1, again];
    SelectPair(FoundCallback(1, [9]), FoundCallback(1, [9]), Callbacks(1));
    assert ConsumerIndex([Searching(FOUND_1, 1, 1, 20)], 1) == 0;
    assert [FoundCallback(1, [9])] + [] == [FoundCallback(1, [9])];
  }

  // ------------------------------------------------------------------- two boots

  /** Two boots 65536 ms apart: the second offer of a FOUND service makes no callback. */
  lemma RebootMissed(clientId: u16, sid: u16, boot: u32, provider: Address)
    requires boot + 65536 < TWO_32
    ensures Run(DEFAULTS, EMPTY, [
        Timed(FindCall(sid, 1), 0),
        Timed(RxOffer(sid, 1, 5, SessionId(clientId, sid, boot), provider), 10),
        Timed(RxOffer(sid, 1, 5, SessionId(clientId, sid, boot + 65536), provider), 20)]).1
      == [FoundCallback(sid, provider)]
  {
    hide Run, Step, SessionId, SessionHash, Wrap32;
    var s := SessionId(clientId, sid, boot);
    SessionCollision(clientId, sid, boot, boot + 65536);
    var run := [Timed(FindCall(sid, 1), 0), Timed(RxOffer(sid, 1, 5, s, provider), 10),
                Timed(RxOffer(sid, 1, 5, s, provider), 20)];
    var searching := Searching(NEW_CONSUMER, sid, 1, 0);
    var found := Heard(searching, s, provider, 10);
    Finding(searching, 0);
    Hearing(searching, s, provider, 10);
    Hearing(found, s, provider, 20);
    var states := [EMPTY, Knowing(searching), Knowing(found), Knowing(Heard(found, s, provider, 20))];
    var outs: seq<seq<Output>> := [[], [FoundCallback(sid, provider)], []];
    assert Chain(states, outs, run);
    ChainRuns(states, outs, run);
    FlatTwo(outs[..2]);
    assert outs == outs[..2] + [[]];
    FlatMore(outs[..2], [[]]);
  }

  // --------------------------------------------------------------- subscriptions

  function Tracker1(active: bool, registered: bool, needsSend: bool, needsUnsubscribe: bool, lastSent: u32,
                    retries: u8): SubTracker {
    SubTracker(1, 0x8001, 10, 0, active, registered, needsSend, needsUnsubscribe, lastSent, retries)
  }

  function With(t: SubTracker): Sd {
    Sd([], [FOUND_1], [t], [])
  }

  const SUBSCRIBE_1 := Unicast([9], SubscribeEvent(1, 0x8001, 10))
  const UNSUBSCRIBE_1 := Unicast([9], Unsubscribe(1, 0x8001))

  /** One operation on the one subscription of the FOUND service. */
  lemma OneStep(t: SubTracker, e: Event, now: u32)
    requires t.serviceId == 1 && t.eventId == 0x8001
    ensures Step(DEFAULTS, With(t), SubscribeCall(1, 0x8001, 10), now) == (With(Subscribed(t, 1, 0x8001, 10, now)), [])
    ensures Step(DEFAULTS, With(t), UnsubscribeCall(1, 0x8001), now)
      == (With(t.(appRegistered := false, needsUnsubscribe := true)), [])
    ensures Step(DEFAULTS, With(t), RxAck(1, 0x8001, 1, 0), now)
         == (With(if t.active then t.(active := false) else t), [AckCallback(1, 0x8001, 1, 0)])
    ensures Step(DEFAULTS, With(t), ProcessRenewals, now)
         == (With(RenewStep(DEFAULTS, [FOUND_1], t, now).0), RenewStep(DEFAULTS, [FOUND_1], t, now).1)
  {
    hide RenewStep;
    var s := [t];
    assert TrackerIndex(s, 1, 0x8001) == 0;
    assert s[..0] == [] && RenewalsOutput(DEFAULTS, [FOUND_1], [], now) == [];
    var sent := RenewStep(DEFAULTS, [FOUND_1], t, now).1;
    assert RenewalsOutput(DEFAULTS, [FOUND_1], s, now) == [] + sent == sent;
    assert RenewalsStepped(DEFAULTS, [FOUND_1], s, now) == [RenewStep(DEFAULTS, [FOUND_1], t, now).0];
    assert s[0 := Subscribed(t, 1, 0x8001, 10, now)] == [Subscribed(t, 1, 0x8001, 10, now)];
    assert s[0 := t.(appRegistered := false, needsUnsubscribe := true)]
      == [t.(appRegistered := false, needsUnsubscribe := true)];
    assert s[0 := t.(active := false)] == [t.(active := false)];
  }

  lemma FirstSubscription(now: u32)
    ensures Step(DEFAULTS, Sd([], [FOUND_1], [], []), SubscribeCall(1, 0x8001, 10), now)
      == (With(Tracker1(true, true, true, false, now, 0)), [])
  {
    var none: seq<SubTracker> := [];
    assert TrackerIndex(none, 1, 0x8001) == 0;
    assert none + [Tracker1(true, true, true, false, now, 0)] == [Tracker1(true, true, true, false, now, 0)];
  }

  /** Subscribe, refusal, unsubscribe, a pass, subscribe again: the pass after it sends an
      unsubscribe and no subscribe, and the subscription asked for is inactive. */
  lemma SubscribedIntoNothing()
    ensures var found := Run(DEFAULTS, EMPTY, [FIND_1, OFFER_1]).0;
      var (sd, log) := Run(DEFAULTS, found, [
        Timed(SubscribeCall(1, 0x8001, 10), 20), Timed(ProcessRenewals, 30), Timed(RxAck(1, 0x8001, 1, 0), 40),
        Timed(UnsubscribeCall(1, 0x8001), 50), Timed(ProcessRenewals, 60),
        Timed(SubscribeCall(1, 0x8001, 10), 70), Timed(ProcessRenewals, 80)]);
      && log == [SUBSCRIBE_1, AckCallback(1, 0x8001, 1, 0), UNSUBSCRIBE_1]
      && sd.trackers == [Tracker1(false, true, true, false, 70, 0)]
  {
    hide Run, Step;
    Found();
    var run := [
      Timed(SubscribeCall(1, 0x8001, 10), 20), Timed(ProcessRenewals, 30), Timed(RxAck(1, 0x8001, 1, 0), 40),
      Timed(UnsubscribeCall(1, 0x8001), 50), Timed(ProcessRenewals, 60),
      Timed(SubscribeCall(1, 0x8001, 10), 70), Timed(ProcessRenewals, 80)];
    var t1, t2 := Tracker1(true, true, true, false, 20, 0), Tracker1(true, true, false, false, 30, 0);
    var t3, t4 := Tracker1(false, true, false, false, 30, 0), Tracker1(false, false, false, true, 30, 0);
    var t6, t7 := Tracker1(true, true, true, true, 70, 0), Tracker1(false, true, true, false, 70, 0);
    assert ProviderOf([FOUND_1], 1) == Some([9]);
    FirstSubscription(20);
    OneStep(t1, ProcessRenewals, 30);
    OneStep(t2, ProcessRenewals, 40);
    OneStep(t3, ProcessRenewals, 50);
    OneStep(t4, ProcessRenewals, 60);
    OneStep(t4, ProcessRenewals, 70);
    OneStep(t6, ProcessRenewals, 80);
    var states := [Sd([], [FOUND_1], [], []), With(t1), With(t2), With(t3), With(t4), With(t4), With(t6), With(t7)];
    var outs: seq<seq<Output>> := [[], [SUBSCRIBE_1], [AckCallback(1, 0x8001, 1, 0)], [], [], [], [UNSUBSCRIBE_1]];
    assert Chain(states, outs, run);
    ChainRuns(states, outs, run);
    FlatSeven(outs);
  }

  lemma FlatTwo(outs: seq<seq<Output>>)
    requires |outs| == 2
    ensures Flat(outs) == outs[0] + outs[1]
  {
    assert outs[1..] == [outs[1]] && [outs[1]][1..] == [] && Flat([outs[1]]) == outs[1];
  }

  lemma FlatSeven(outs: seq<seq<Output>>)
    requires |outs| == 7
    ensures Flat(outs) == outs[0] + outs[1] + outs[2] + outs[3] + outs[4] + outs[5] + outs[6]
  {
    assert Flat(outs[4..]) == outs[4] + (outs[5] + outs[6]) by {
      assert outs[4..][1..] == [outs[5], outs[6]] && [outs[5], outs[6]][1..] == [outs[6]] && [outs[6]][1..] == [];
      assert Flat([]) == [] && Flat([outs[6]]) == outs[6] && Flat([outs[5], outs[6]]) == outs[5] + outs[6];
    }
    assert outs[1..][1..] == outs[2..] && outs[2..][1..] == outs[3..] && outs[3..][1..] == outs[4..];
    assert Flat(outs[3..]) == outs[3] + Flat(outs[4..]);
    assert Flat(outs[2..]) == outs[2] + Flat(outs[3..]);
    assert Flat(outs[1..]) == outs[1] + Flat(outs[2..]);
  }

  /** A cycle of a device whose queue holds the provider's offer: the offer, then the passes. */
  function Cycle(now: u32): seq<Timed> {
    [Timed(RxOffer(1, 1, 5, 3, [9]), now), Timed(ProcessOffers, now), Timed(ProcessRenewals, now),
     Timed(ProcessTtls, now), Timed(ProcessFinds, now)]
  }

  /** The one subscription of the service, whose lease ends at `end`. */
  function Until(end: u32, t: SubTracker): Sd {
    Sd([], [FOUND_1.(ttlExpiryMs := end)], [t], [])
  }

  /** The offer renews the service, so the cycle does to the subscription what its step does. */
  lemma OneCycle(end: u32, t: SubTracker, now: u32)
    requires t.serviceId == 1 && t.eventId == 0x8001
    ensures Run(DEFAULTS, Until(end, t), Cycle(now))
         == (Until(Wrap32(now + 5000), RenewStep(DEFAULTS, [FOUND_1], t, now).0),
             RenewStep(DEFAULTS, [FOUND_1], t, now).1)
  {
    hide Run, Step, RenewStep, Wrap32;
    var (t', sent) := RenewStep(DEFAULTS, [FOUND_1], t, now);
    var before, after := Until(Wrap32(now + 5000), t), Until(Wrap32(now + 5000), t');
    Passes(end, t, now);
    PassesKeep(t', now);
    var states := [Until(end, t), before, before, after, after, after];
    var outs: seq<seq<Output>> := [[], [], sent, [], []];
    assert Chain(states, outs, Cycle(now));
    ChainRuns(states, outs, Cycle(now));
    assert outs + [[], []] == [[], [], sent, [], [], [], []];
    FlatMore(outs, [[], []]);
    FlatSeven(outs + [[], []]);
    assert outs[0] + outs[1] + sent + outs[3] + outs[4] + [] + [] == sent;
  }

  /** The offer, the pass that offers nothing, and the renewals. */
  lemma Passes(end: u32, t: SubTracker, now: u32)
    requires t.serviceId == 1 && t.eventId == 0x8001
    ensures Step(DEFAULTS, Until(end, t), RxOffer(1, 1, 5, 3, [9]), now) == (Until(Wrap32(now + 5000), t), [])
    ensures Step(DEFAULTS, Until(end, t), ProcessOffers, now) == (Until(end, t), [])
    ensures Step(DEFAULTS, Until(Wrap32(now + 5000), t), ProcessOffers, now) == (Until(Wrap32(now + 5000), t), [])
    ensures Step(DEFAULTS, Until(Wrap32(now + 5000), t), ProcessRenewals, now)
         == (Until(Wrap32(now + 5000), RenewStep(DEFAULTS, [FOUND_1], t, now).0),
             RenewStep(DEFAULTS, [FOUND_1], t, now).1)
  {
    hide RenewStep, Wrap32;
    var ce := FOUND_1.(ttlExpiryMs := end);
    var x := Wrap32(now + 5000);
    assert ConsumerIndex([ce], 1) == 0 && [ce][0 := ce.(ttlExpiryMs := x)] == [FOUND_1.(ttlExpiryMs := x)];
    assert OffersStepped([], [], now) == [] && OffersOutput([], [], now) == [];
    var s := [t];
    var cs := [FOUND_1.(ttlExpiryMs := x)];
    SameStep(cs, t, now);
    var sent := RenewStep(DEFAULTS, cs, t, now).1;
    assert s[..0] == [] && RenewalsOutput(DEFAULTS, cs, [], now) == [];
    assert RenewalsOutput(DEFAULTS, cs, s, now) == [] + sent == sent;
    assert RenewalsStepped(DEFAULTS, cs, s, now) == [RenewStep(DEFAULTS, cs, t, now).0];
  }

  /** A tracker looks at the address only. */
  lemma SameStep(cs: seq<ConsumerEntry>, t: SubTracker, now: u32)
    requires t.serviceId == 1 && |cs| == 1 && cs[0].serviceId == 1 && cs[0].state == FOUND && cs[0].addr == [9]
    ensures RenewStep(DEFAULTS, cs, t, now) == RenewStep(DEFAULTS, [FOUND_1], t, now)
  {
    hide Wrap32, TimeAfterOrEq;
    assert ProviderOf(cs, 1) == Some([9]) && ProviderOf([FOUND_1], 1) == Some([9]);
  }

  /** Neither expiry nor search has anything to do after it. */
  lemma PassesKeep(t: SubTracker, now: u32)
    ensures var sd := Until(Wrap32(now + 5000), t);
      Step(DEFAULTS, sd, ProcessTtls, now) == (sd, []) && Step(DEFAULTS, sd, ProcessFinds, now) == (sd, [])
  {
    hide Wrap32, TimeAfter, TimeAfterOrEq;
    var ce := FOUND_1.(ttlExpiryMs := Wrap32(now + 5000));
    var s := [ce];
    StillRuns(now);
    assert s[..0] == [] && TtlsOutput([], now) == [] && FindsOutput(DEFAULTS, [], now) == [];
    assert TtlStep(ce, now) == (ce, []) && FindStep(DEFAULTS, ce, now) == (ce, []);
    assert TtlsStepped(s, now) == s && FindsStepped(DEFAULTS, s, now) == s;
    assert TtlsOutput(s, now) == [] + [] && FindsOutput(DEFAULTS, s, now) == [] + [];
  }

  lemma StillRuns(now: u32)
    ensures !TimeAfter(now, Wrap32(now + 5000))
  {
    ClockComparison(now, now + 5000);
  }

  /** The run goes on with one more cycle. */
  lemma AndCycle(sd: Sd, run: seq<Timed>, end: u32, t: SubTracker, log: seq<Output>, now: u32)
    requires Run(DEFAULTS, sd, run) == (Until(end, t), log) && t.serviceId == 1 && t.eventId == 0x8001
    ensures Run(DEFAULTS, sd, run + Cycle(now))
         == (Until(Wrap32(now + 5000), RenewStep(DEFAULTS, [FOUND_1], t, now).0), log
           + RenewStep(DEFAULTS, [FOUND_1], t, now).1)
  {
    hide Run, RenewStep, Wrap32;
    OneCycle(end, t, now);
    RunAppend(sd, run, Cycle(now));
  }

  lemma {:induction false} RunAppend(sd: Sd, a: seq<Timed>, b: seq<Timed>)
    ensures Run(DEFAULTS, sd, a + b)
         == (Run(DEFAULTS, Run(DEFAULTS, sd, a).0, b).0, Run(DEFAULTS, sd, a).1
           + Run(DEFAULTS, Run(DEFAULTS, sd, a).0, b).1)
    decreases |b|
  {
    hide Step;
    if b == [] {
      var (sd1, log1) := Run(DEFAULTS, sd, a);
      assert a + b == a && Run(DEFAULTS, sd1, b) == (sd1, []) && log1 + [] == log1;
    } else {
      var k := |b| - 1;
      assert a + b == (a + b[..k]) + [b[k]] && b == b[..k] + [b[k]];
      RunAppend(sd, a, b[..k]);
      RunSnoc(DEFAULTS, sd, a + b[..k], b[k]);
      RunSnoc(DEFAULTS, Run(DEFAULTS, sd, a).0, b[..k], b[k]);
      var (sd1, log1) := Run(DEFAULTS, sd, a);
      var (sd2, log2) := Run(DEFAULTS, sd1, b[..k]);
      var out := Step(DEFAULTS, sd2, b[k].e, b[k].now).1;
      assert (log1 + log2) + out == log1 + (log2 + out);
    }
  }

  const CALL_1 := SubscribeCall(1, 0x8001, 10)

  // The subscription after each of them: called for, sent, retried twice, given up; and again.
  const CALLED := Tracker1(true, true, true, false, 20, 0)
  const SENT := Tracker1(true, true, false, false, 30, 0)
  const RETRIED := Tracker1(true, true, false, false, 10030, 1)
  const TWICE := Tracker1(true, true, false, false, 20030, 2)
  const GIVEN_UP := Tracker1(false, true, false, false, 20030, 2)
  const CALLED_2 := Tracker1(true, true, true, false, 30040, 2)
  const SENT_2 := Tracker1(true, true, false, false, 30050, 2)
  const GIVEN_UP_2 := Tracker1(false, true, false, false, 30050, 2)

  lemma RenewSteps()
    ensures RenewStep(DEFAULTS, [FOUND_1], CALLED, 30) == (SENT, [SUBSCRIBE_1])
    ensures RenewStep(DEFAULTS, [FOUND_1], SENT, 10030) == (RETRIED, [SUBSCRIBE_1])
    ensures RenewStep(DEFAULTS, [FOUND_1], RETRIED, 20030) == (TWICE, [SUBSCRIBE_1])
    ensures RenewStep(DEFAULTS, [FOUND_1], TWICE, 30030) == (GIVEN_UP, [])
    ensures RenewStep(DEFAULTS, [FOUND_1], CALLED_2, 30050) == (SENT_2, [SUBSCRIBE_1])
    ensures RenewStep(DEFAULTS, [FOUND_1], SENT_2, 40050) == (GIVEN_UP_2, [])
  {
    assert ProviderOf([FOUND_1], 1) == Some([9]);
  }

  /** Sent three times and given up. */
  lemma FirstTry()
    ensures Run(DEFAULTS, Sd([], [FOUND_1], [], []),
                [Timed(CALL_1, 20)] + Cycle(30) + Cycle(10030) + Cycle(20030) + Cycle(30030))
         == (Until(35030, GIVEN_UP), [SUBSCRIBE_1, SUBSCRIBE_1, SUBSCRIBE_1])
  {
    hide Run, Step, Cycle, RenewStep;
    RenewSteps();
    var found := Sd([], [FOUND_1], [], []);
    var none: seq<Output> := [];
    assert none + [SUBSCRIBE_1] == [SUBSCRIBE_1] && [SUBSCRIBE_1] + [SUBSCRIBE_1] == [SUBSCRIBE_1, SUBSCRIBE_1];
    assert [SUBSCRIBE_1, SUBSCRIBE_1] + [SUBSCRIBE_1] == [SUBSCRIBE_1, SUBSCRIBE_1, SUBSCRIBE_1];
    assert [SUBSCRIBE_1, SUBSCRIBE_1, SUBSCRIBE_1] + none == [SUBSCRIBE_1, SUBSCRIBE_1, SUBSCRIBE_1];
    FirstSubscription(20);
    RunsOne(found, Timed(CALL_1, 20));
    AndCycle(found, [Timed(CALL_1, 20)], 5010, CALLED, none, 30);
    AndCycle(found, [Timed(CALL_1, 20)] + Cycle(30), 5030, SENT, [SUBSCRIBE_1], 10030);
    AndCycle(found, [Timed(CALL_1, 20)] + Cycle(30) + Cycle(10030), 15030, RETRIED, [SUBSCRIBE_1, SUBSCRIBE_1], 20030);
    AndCycle(found, [Timed(CALL_1, 20)] + Cycle(30) + Cycle(10030) + Cycle(20030), 25030, TWICE,
             [SUBSCRIBE_1, SUBSCRIBE_1, SUBSCRIBE_1], 30030);
  }

  /** Sent once and given up. */
  lemma SecondTry()
    ensures Run(DEFAULTS, Until(35030, GIVEN_UP), [Timed(CALL_1, 30040)] + Cycle(30050) + Cycle(40050))
         == (Until(45050, GIVEN_UP_2), [SUBSCRIBE_1])
  {
    hide Run, Step, Cycle, RenewStep;
    RenewSteps();
    var sd := Until(35030, GIVEN_UP);
    var none: seq<Output> := [];
    assert none + [SUBSCRIBE_1] == [SUBSCRIBE_1] && [SUBSCRIBE_1] + none == [SUBSCRIBE_1];
    AgainSubscribed(35030, GIVEN_UP, 30040);
    RunsOne(sd, Timed(CALL_1, 30040));
    AndCycle(sd, [Timed(CALL_1, 30040)], 35030, CALLED_2, none, 30050);
    AndCycle(sd, [Timed(CALL_1, 30040)] + Cycle(30050), 35050, SENT_2, [SUBSCRIBE_1], 40050);
  }

  /** Each cycle hears the provider's offer, so the service is never lost. A subscription nobody
      answers is sent three times and given up. Subscribing again is sent once and given up
      at the first retry. */
  lemma OneTryLeft()
    ensures var found := Run(DEFAULTS, EMPTY, [FIND_1, OFFER_1]).0;
      var (sd, log) := Run(DEFAULTS, found, [Timed(CALL_1, 20)] + Cycle(30) + Cycle(10030) + Cycle(20030)
        + Cycle(30030));
      var (sd', log') := Run(DEFAULTS, sd, [Timed(CALL_1, 30040)] + Cycle(30050) + Cycle(40050));
      && log == [SUBSCRIBE_1, SUBSCRIBE_1, SUBSCRIBE_1]
      && sd.trackers == [GIVEN_UP] && !GIVEN_UP.active
      && log' == [SUBSCRIBE_1] && sd'.trackers == [GIVEN_UP_2] && !GIVEN_UP_2.active
  {
    hide Run, Step, Cycle;
    Found();
    FirstTry();
    SecondTry();
  }

  lemma RunsOne(sd: Sd, e: Timed)
    ensures Run(DEFAULTS, sd, [e]) == Step(DEFAULTS, sd, e.e, e.now)
  {
    hide Step;
    var (sd', out) := Step(DEFAULTS, sd, e.e, e.now);
    assert [e][1..] == [] && Run(DEFAULTS, sd', []) == (sd', []) && out + [] == out;
  }

  lemma AgainSubscribed(end: u32, t: SubTracker, now: u32)
    requires t.serviceId == 1 && t.eventId == 0x8001
    ensures Step(DEFAULTS, Until(end, t), CALL_1, now) == (Until(end, Subscribed(t, 1, 0x8001, 10, now)), [])
  {
    var s := [t];
    assert TrackerIndex(s, 1, 0x8001) == 0
      && s[0 := Subscribed(t, 1, 0x8001, 10, now)] == [Subscribed(t, 1, 0x8001, 10, now)];
  }

  lemma {:induction false} FlatMore(outs: seq<seq<Output>>, more: seq<seq<Output>>)
    requires forall k :: 0 <= k < |more| ==> more[k] == []
    ensures Flat(outs + more) == Flat(outs)
    decreases |outs| + |more|
  {
    if outs != [] {
      assert (outs + more)[1..] == outs[1..] + more;
      FlatMore(outs[1..], more);
    } else if more != [] {
      assert outs + more == more && outs + more[1..] == more[1..];
      FlatMore(outs, more[1..]);
    }
  }

  // ------------------------------------------------------------ one sending counter

  /** A receiver that got one message; then the sender sends 15 messages to another device
      and one to it. Nothing was lost, and the message is stale. */
  lemma FreshButStale(sender: Address)
    ensures var peers := E2E.Validate([], 32, 15, sender, 0).0;
      E2E.Validate(peers, 32, 15, sender, 16).1 == E2E.Stale
  {
    var none: seq<E2E.Peer> := [];
    assert E2E.PeerIndex(none, sender) == 0;
    var peers := E2E.Validate(none, 32, 15, sender, 0).0;
    assert peers == none + [E2E.Peer(sender, 0)] == [E2E.Peer(sender, 0)];
    assert E2E.PeerIndex(peers, sender) == 0;
  }
}
