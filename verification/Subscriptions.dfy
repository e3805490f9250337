/** Subscription trackers over whole runs: unsubscribing is final, unacknowledged
subscriptions are retried a bounded number of times, and a returning provider revives them. */
module Subscriptions {
  import opened Words
  import opened SdMessages
  import opened DiscoverySpec
  import opened DiscoveryLog

  const EMPTY := Sd([], [], [], [])

  ghost predicate Distinct(sd: Sd) {
    DistinctConsumers(sd.consumers) && DistinctTrackers(sd.trackers)
  }

  lemma {:induction false} RunDistinct(cfg: SdConfig, sd: Sd, run: seq<Timed>)
    requires Distinct(sd)
    ensures Distinct(Run(cfg, sd, run).0)
    decreases |run|
  {
    hide Step, Distinct;
    if run != [] {
      assert DistinctConsumers(sd.consumers) && DistinctTrackers(sd.trackers) by { DistinctParts(sd); }
      StepDistinct(cfg, sd, run[0].e, run[0].now);
      DistinctWhole(Step(cfg, sd, run[0].e, run[0].now).0);
      RunDistinct(cfg, Step(cfg, sd, run[0].e, run[0].now).0, run[1..]);
    }
  }

  lemma DistinctParts(sd: Sd)
    requires Distinct(sd)
    ensures DistinctConsumers(sd.consumers) && DistinctTrackers(sd.trackers)
  {
  }

  lemma DistinctWhole(sd: Sd)
    requires DistinctConsumers(sd.consumers) && DistinctTrackers(sd.trackers)
    ensures Distinct(sd)
  {
  }

  function TrackerOf(sd: Sd, sid: u16, eid: u16): Option<SubTracker> {
    var i := TrackerIndex(sd.trackers, sid, eid);
    if i < |sd.trackers| then Some(sd.trackers[i]) else None
  }

  predicate IsSubscribeCall(e: Event, sid: u16, eid: u16) {
    e.SubscribeCall? && e.sid == sid && e.eid == eid
  }

  /** An offer that finds, re-finds, moves or reboots a provider: it flags the service's
      subscriptions for sending. */
  predicate Flags(sd: Sd, e: Event, sid: u16) {
    && e.RxOffer? && e.sid == sid && OfferRelevant(sd.consumers, sid, e.major, e.ttl)
    && var ce := sd.consumers[ConsumerIndex(sd.consumers, sid)];
      Reboot(ce, e.session) || ce.state != FOUND || ce.addr != e.provider
  }

  /** What one operation other than a new subscription does to one tracker. */
  function TrackerStep(cfg: SdConfig, sd: Sd, t: SubTracker, e: Event, now: u32): SubTracker {
    if e.UnsubscribeCall? && IsTracker(t, e.sid, e.eid) then t.(appRegistered := false, needsUnsubscribe := true)
    else if e.ProcessRenewals? then RenewStep(cfg, sd.consumers, t, now).0
    else if Flags(sd, e, t.serviceId) then Flagged(t, t.serviceId, now)
    else if e.RxAck? && IsTracker(t, e.sid, e.eid) && t.active then
      (if e.result == 0 then t.(grantedTtl := e.ttl) else t.(active := false))
    else t
  }

  lemma TrackerStepIs(cfg: SdConfig, sd: Sd, e: Event, now: u32, sid: u16, eid: u16)
    requires Distinct(sd) && !IsSubscribeCall(e, sid, eid)
    ensures TrackerOf(Step(cfg, sd, e, now).0, sid, eid) ==
      match TrackerOf(sd, sid, eid) case None => None case Some(t) => Some(TrackerStep(cfg, sd, t, e, now))
  {
    hide SessionId, RenewStep, FindStep, TtlStep, OfferStep;
    var s' := Step(cfg, sd, e, now).0.trackers;
    var i := TrackerIndex(sd.trackers, sid, eid);
    TrackerKeep(cfg, sd, e, now);
    if i < |sd.trackers| {
      EntryStepIs(cfg, sd, e, now, sid, eid, i);
      TrackersDistinct(cfg, sd, e, now);
      TrackerIndexIs(s', sid, eid, i);
    } else {
      assert forall k :: 0 <= k < |sd.trackers| ==> !IsTracker(sd.trackers[k], sid, eid);
      assert forall k :: 0 <= k < |s'| ==> !IsTracker(s'[k], sid, eid);
    }
  }

  /** Keys stay where they are; a subscription call may add its own at the end. */
  lemma TrackerKeep(cfg: SdConfig, sd: Sd, e: Event, now: u32)
    ensures var s' := Step(cfg, sd, e, now).0.trackers;
      && |s'| >= |sd.trackers|
      && (forall i :: 0 <= i < |sd.trackers| ==>
          s'[i].serviceId == sd.trackers[i].serviceId && s'[i].eventId == sd.trackers[i].eventId)
      && (forall i :: |sd.trackers| <= i < |s'| ==> IsSubscribeCall(e, s'[i].serviceId, s'[i].eventId))
  {
    hide SessionId, TimeAfterOrEq, TimeAfter;
    if !e.SubscribeCall? {
      TrackerKeys(cfg, sd, e, now);
    }
  }

  lemma EntryStepIs(cfg: SdConfig, sd: Sd, e: Event, now: u32, sid: u16, eid: u16, i: nat)
    requires Distinct(sd) && !IsSubscribeCall(e, sid, eid)
    requires i < |sd.trackers| && IsTracker(sd.trackers[i], sid, eid)
    ensures i < |Step(cfg, sd, e, now).0.trackers|
    ensures Step(cfg, sd, e, now).0.trackers[i] == TrackerStep(cfg, sd, sd.trackers[i], e, now)
  {
    hide SessionId, RenewStep, FindStep, TtlStep, OfferStep;
    TrackerIndexIs(sd.trackers, sid, eid, i);
    if e.RxAck? || e.UnsubscribeCall? || e.SubscribeCall? {
      var j := TrackerIndex(sd.trackers, e.sid, e.eid);
      assert j == i ==> e.sid == sid && e.eid == eid;
    }
  }

  /** One renewal pass speaks about a subscription only through its own tracker. */
  lemma RenewalSends(cfg: SdConfig, sd: Sd, now: u32, sid: u16, eid: u16, t: Topic)
    requires Distinct(sd) && (t == Subscribes(sid, eid) || t == Unsubscribes(sid, eid))
    ensures Select(Step(cfg, sd, ProcessRenewals, now).1, t) ==
      match TrackerOf(sd, sid, eid) case None => [] case Some(x) => Select(RenewStep(cfg, sd.consumers, x, now).1, t)
  {
    hide TimeAfterOrEq, Select;
    var i := TrackerIndex(sd.trackers, sid, eid);
    forall k | 0 <= k < |sd.trackers| && k != i
      ensures Select(RenewStep(cfg, sd.consumers, sd.trackers[k], now).1, t) == []
    {
      OtherKey(sd, sid, eid, k);
      SelectNone(RenewStep(cfg, sd.consumers, sd.trackers[k], now).1, t);
    }
    SelectRenewals(cfg, sd.consumers, sd.trackers, now, t, i);
  }

  lemma OtherKey(sd: Sd, sid: u16, eid: u16, k: nat)
    requires Distinct(sd) && k < |sd.trackers| && k != TrackerIndex(sd.trackers, sid, eid)
    ensures !IsTracker(sd.trackers[k], sid, eid)
  {
    if IsTracker(sd.trackers[k], sid, eid) {
      TrackerIndexIs(sd.trackers, sid, eid, k);
    }
  }

  /** What a tracker sends in one pass, on the two topics. */
  lemma RenewTopics(cfg: SdConfig, cs: seq<ConsumerEntry>, x: SubTracker, now: u32)
    ensures var out := RenewStep(cfg, cs, x, now).1;
      && |out| <= 1
      && Select(out, Subscribes(x.serviceId, x.eventId))
        == (if out != [] && out[0].msg.SubscribeEvent? then out else [])
      && Select(out, Unsubscribes(x.serviceId, x.eventId)) == (if out != [] && out[0].msg.Unsubscribe? then out else [])
  {
    hide TimeAfterOrEq, Wrap32, Select;
    var out := RenewStep(cfg, cs, x, now).1;
    var t1, t2 := Subscribes(x.serviceId, x.eventId), Unsubscribes(x.serviceId, x.eventId);
    SelectNone([], t1);
    SelectNone([], t2);
    if out != [] {
      assert out == [out[0]];
      SelectPair(out[0], out[0], t1);
      SelectPair(out[0], out[0], t2);
    }
  }

  // ------------------------------------------------------------ unsubscribing is final

  /** A subscription the application gave up: if still active, it waits to be unsubscribed. */
  ghost predicate Cancelled(sd: Sd, sid: u16, eid: u16) {
    match TrackerOf(sd, sid, eid)
    case None => true
    case Some(t) => !t.appRegistered && (t.active ==> t.needsUnsubscribe)
  }

  /** The unsubscribe messages it may still send. */
  ghost function Pending(sd: Sd, sid: u16, eid: u16): nat {
    match TrackerOf(sd, sid, eid)
    case None => 0
    case Some(t) => if t.active then 1 else 0
  }

  lemma CancelledStep(cfg: SdConfig, sd: Sd, e: Event, now: u32, sid: u16, eid: u16)
    requires Distinct(sd) && Cancelled(sd, sid, eid) && !IsSubscribeCall(e, sid, eid)
    ensures var (sd', out) := Step(cfg, sd, e, now);
      && Distinct(sd') && Cancelled(sd', sid, eid)
      && Select(out, Subscribes(sid, eid)) == []
      && |Select(out, Unsubscribes(sid, eid))| + Pending(sd', sid, eid) <= Pending(sd, sid, eid)
  {
    hide Step, Select, TimeAfterOrEq, Distinct, TrackerOf;
    DistinctParts(sd);
    StepDistinct(cfg, sd, e, now);
    DistinctWhole(Step(cfg, sd, e, now).0);
    TrackerStepIs(cfg, sd, e, now, sid, eid);
    TrackerHasKey(sd, sid, eid);
    if e.ProcessRenewals? {
      RenewalSends(cfg, sd, now, sid, eid, Subscribes(sid, eid));
      RenewalSends(cfg, sd, now, sid, eid, Unsubscribes(sid, eid));
      if TrackerOf(sd, sid, eid).Some? {
        RenewTopics(cfg, sd.consumers, TrackerOf(sd, sid, eid).value, now);
      }
    } else {
      Silent(cfg, sd, e, now, Subscribes(sid, eid));
      Silent(cfg, sd, e, now, Unsubscribes(sid, eid));
    }
  }

  lemma TrackerHasKey(sd: Sd, sid: u16, eid: u16)
    ensures TrackerOf(sd, sid, eid).Some? ==> IsTracker(TrackerOf(sd, sid, eid).value, sid, eid)
  {
  }

  ghost predicate NoSubscribeCall(run: seq<Timed>, sid: u16, eid: u16) {
    forall i :: 0 <= i < |run| ==> !IsSubscribeCall(run[i].e, sid, eid)
  }

  lemma {:induction false} CancelledRun(cfg: SdConfig, sd: Sd, run: seq<Timed>, sid: u16, eid: u16)
    requires Distinct(sd) && Cancelled(sd, sid, eid) && NoSubscribeCall(run, sid, eid)
    ensures var log := Run(cfg, sd, run).1;
      && Select(log, Subscribes(sid, eid)) == []
      && |Select(log, Unsubscribes(sid, eid))| <= Pending(sd, sid, eid)
    decreases |run|
  {
    hide Step, Distinct, Cancelled, Pending, Concerns;
    if run != [] {
      var (sd1, out1) := Step(cfg, sd, run[0].e, run[0].now);
      assert !IsSubscribeCall(run[0].e, sid, eid);
      CancelledStep(cfg, sd, run[0].e, run[0].now, sid, eid);
      CancelledRun(cfg, sd1, run[1..], sid, eid);
      var out2 := Run(cfg, sd1, run[1..]).1;
      SelectConcat(out1, out2, Subscribes(sid, eid));
      SelectConcat(out1, out2, Unsubscribes(sid, eid));
    }
  }

  /** From any reachable state: after `unsubscribe_event` no run of offers, acks, reboots,
      expiries, renewals and other calls sends SD_SUBSCRIBE_EVENT for that key again, and
      at most one SD_UNSUBSCRIBE, until the application subscribes anew. */
  lemma UnsubscribeIsFinal(cfg: SdConfig, before: seq<Timed>, now: u32, after: seq<Timed>, sid: u16, eid: u16)
    requires NoSubscribeCall(after, sid, eid)
    ensures var sd := Step(cfg, Run(cfg, EMPTY, before).0, UnsubscribeCall(sid, eid), now).0;
      var log := Run(cfg, sd, after).1;
      Select(log, Subscribes(sid, eid)) == [] && |Select(log, Unsubscribes(sid, eid))| <= 1
  {
    hide Run, Step, Distinct, Select, TrackerOf;
    DistinctWhole(EMPTY);
    RunDistinct(cfg, EMPTY, before);
    var sd := Run(cfg, EMPTY, before).0;
    var e := UnsubscribeCall(sid, eid);
    DistinctParts(sd);
    StepDistinct(cfg, sd, e, now);
    DistinctWhole(Step(cfg, sd, e, now).0);
    TrackerStepIs(cfg, sd, e, now, sid, eid);
    TrackerHasKey(sd, sid, eid);
    CancelledRun(cfg, Step(cfg, sd, e, now).0, after, sid, eid);
  }

  /** Subscribing again reaches the provider at the next renewal pass exactly when no
      unsubscribe was still pending: `subscribe_event` does not clear the pending flag, so
      otherwise the pass unsubscribes and the subscription the application asked for is
      inactive. */
  lemma ResubscribeTakesEffect(cfg: SdConfig, sd: Sd, sid: u16, eid: u16, ttl: u16, now: u32, later: u32,
                               provider: Address)
    requires Distinct(sd) && SubscribeTo(cfg, sd.trackers, sid, eid, ttl, now).1
    requires ProviderOf(sd.consumers, sid) == Some(provider)
    ensures var pending := TrackerOf(sd, sid, eid).Some? && TrackerOf(sd, sid, eid).value.needsUnsubscribe;
      var sd1 := Step(cfg, sd, SubscribeCall(sid, eid, ttl), now).0;
      var (sd2, out) := Step(cfg, sd1, ProcessRenewals, later);
      && (Select(out, Subscribes(sid, eid)) == [Unicast(provider, SubscribeEvent(sid, eid, ttl))] <==> !pending)
      && (Select(out, Unsubscribes(sid, eid)) == [Unicast(provider, Unsubscribe(sid, eid))] <==> pending)
      && (pending ==> TrackerOf(sd2, sid, eid).Some? && !TrackerOf(sd2, sid, eid).value.active)
  {
    hide Select, TimeAfterOrEq;
    var sd1 := Step(cfg, sd, SubscribeCall(sid, eid, ttl), now).0;
    StepDistinct(cfg, sd, SubscribeCall(sid, eid, ttl), now);
    var i := TrackerIndex(sd.trackers, sid, eid);
    TrackerIndexIs(sd1.trackers, sid, eid, i);
    var x := sd1.trackers[i];
    RenewalSends(cfg, sd1, later, sid, eid, Subscribes(sid, eid));
    RenewalSends(cfg, sd1, later, sid, eid, Unsubscribes(sid, eid));
    RenewTopics(cfg, sd1.consumers, x, later);
    TrackerStepIs(cfg, sd1, ProcessRenewals, later, sid, eid);
  }

  // -------------------------------------------------------------- bounded retries

  /** The subscribe messages an unacknowledged tracker may still send. */
  ghost function Budget(t: SubTracker): int {
    if !t.active then 0 else (if t.needsSend then 1 else 0) + 2 - t.ackRetryCount
  }

  /** Retry counts never pass two. */
  ghost predicate CountsBounded(sd: Sd) {
    forall i :: 0 <= i < |sd.trackers| ==> sd.trackers[i].ackRetryCount <= 2
  }

  lemma CountsStep(cfg: SdConfig, sd: Sd, e: Event, now: u32)
    requires CountsBounded(sd)
    ensures CountsBounded(Step(cfg, sd, e, now).0)
  {
    hide SessionId, TimeAfterOrEq, FindStep, TtlStep, OfferStep;
  }

  /** Neither the application, nor an acknowledgement, nor a returning provider touches
      the subscription. */
  ghost predicate Quiet(sd: Sd, e: Event, sid: u16, eid: u16) {
    && !IsSubscribeCall(e, sid, eid)
    && !(e.RxAck? && e.sid == sid && e.eid == eid)
    && !Flags(sd, e, sid)
  }

  ghost predicate Unacknowledged(sd: Sd, sid: u16, eid: u16) {
    TrackerOf(sd, sid, eid).Some? && TrackerOf(sd, sid, eid).value.grantedTtl == 0
  }

  /** Each subscribe message sent without a stimulus uses up one of the budget. */
  lemma BudgetStep(cfg: SdConfig, sd: Sd, e: Event, now: u32, sid: u16, eid: u16)
    requires Distinct(sd) && CountsBounded(sd) && Unacknowledged(sd, sid, eid) && Quiet(sd, e, sid, eid)
    ensures var (sd', out) := Step(cfg, sd, e, now);
      && Distinct(sd') && CountsBounded(sd') && Unacknowledged(sd', sid, eid)
      && var t, t' := TrackerOf(sd, sid, eid).value, TrackerOf(sd', sid, eid).value;
        && |Select(out, Subscribes(sid, eid))| + Budget(t') <= Budget(t)
        && (t'.active ==> |Select(out, Subscribes(sid, eid))| + Budget(t') == Budget(t))
        && 0 <= Budget(t') && Budget(t) <= 3
  {
    hide Step, Select, TimeAfterOrEq, Distinct, TrackerOf;
    CountsStep(cfg, sd, e, now);
    DistinctParts(sd);
    StepDistinct(cfg, sd, e, now);
    DistinctWhole(Step(cfg, sd, e, now).0);
    TrackerStepIs(cfg, sd, e, now, sid, eid);
    TrackerHasKey(sd, sid, eid);
    CountOf(sd, sid, eid);
    CountOf(Step(cfg, sd, e, now).0, sid, eid);
    if e.ProcessRenewals? {
      RenewalSends(cfg, sd, now, sid, eid, Subscribes(sid, eid));
      RenewTopics(cfg, sd.consumers, TrackerOf(sd, sid, eid).value, now);
    } else {
      Silent(cfg, sd, e, now, Subscribes(sid, eid));
    }
  }

  lemma CountOf(sd: Sd, sid: u16, eid: u16)
    requires CountsBounded(sd) && TrackerOf(sd, sid, eid).Some?
    ensures TrackerOf(sd, sid, eid).value.ackRetryCount <= 2
  {
  }

  ghost predicate QuietRun(cfg: SdConfig, sd: Sd, run: seq<Timed>, sid: u16, eid: u16)
    decreases |run|
  {
    run == [] || (Quiet(sd, run[0].e, sid, eid)
                  && QuietRun(cfg, Step(cfg, sd, run[0].e, run[0].now).0, run[1..], sid, eid))
  }

  /** Over any run without a stimulus, an unacknowledged tracker sends at most its budget,
      so never more than three times; and as long as it is active, what it has sent and what
      it may still send add up to the budget it started with. */
  lemma {:induction false} RetriesBounded(cfg: SdConfig, sd: Sd, run: seq<Timed>, sid: u16, eid: u16)
    requires Distinct(sd) && CountsBounded(sd) && Unacknowledged(sd, sid, eid) && QuietRun(cfg, sd, run, sid, eid)
    ensures var (sd', log) := Run(cfg, sd, run);
      && Unacknowledged(sd', sid, eid)
      && var t, t' := TrackerOf(sd, sid, eid).value, TrackerOf(sd', sid, eid).value;
        && |Select(log, Subscribes(sid, eid))| <= Budget(t) <= 3
        && (t'.active ==> |Select(log, Subscribes(sid, eid))| + Budget(t') == Budget(t))
    decreases |run|
  {
    hide Step, Distinct, Quiet, Concerns, TrackerOf, CountsBounded;
    CountOf(sd, sid, eid);
    if run != [] {
      var (sd1, out1) := Step(cfg, sd, run[0].e, run[0].now);
      BudgetStep(cfg, sd, run[0].e, run[0].now, sid, eid);
      RetriesBounded(cfg, sd1, run[1..], sid, eid);
      StaysInactive(cfg, sd1, run[1..], sid, eid);
      SelectConcat(out1, Run(cfg, sd1, run[1..]).1, Subscribes(sid, eid));
    }
  }

  lemma {:induction false} StaysInactive(cfg: SdConfig, sd: Sd, run: seq<Timed>, sid: u16, eid: u16)
    requires Distinct(sd) && CountsBounded(sd) && Unacknowledged(sd, sid, eid) && QuietRun(cfg, sd, run, sid, eid)
    ensures Unacknowledged(Run(cfg, sd, run).0, sid, eid)
    ensures !TrackerOf(sd, sid, eid).value.active ==> !TrackerOf(Run(cfg, sd, run).0, sid, eid).value.active
    decreases |run|
  {
    hide Step, Distinct, Quiet, TrackerOf, CountsBounded;
    if run != [] {
      BudgetStep(cfg, sd, run[0].e, run[0].now, sid, eid);
      InactiveStep(cfg, sd, run[0].e, run[0].now, sid, eid);
      StaysInactive(cfg, Step(cfg, sd, run[0].e, run[0].now).0, run[1..], sid, eid);
    }
  }

  lemma InactiveStep(cfg: SdConfig, sd: Sd, e: Event, now: u32, sid: u16, eid: u16)
    requires Distinct(sd) && Unacknowledged(sd, sid, eid) && Quiet(sd, e, sid, eid)
    requires Unacknowledged(Step(cfg, sd, e, now).0, sid, eid)
    ensures !TrackerOf(sd, sid, eid).value.active ==> !TrackerOf(Step(cfg, sd, e, now).0, sid, eid).value.active
  {
    hide Step, TimeAfterOrEq, Distinct, TrackerOf;
    TrackerStepIs(cfg, sd, e, now, sid, eid);
    TrackerHasKey(sd, sid, eid);
  }

  /** A pass while the service is FOUND gives the subscription up exactly when its budget is
      used up and the last send lies `SubscriptionTtlSeconds` back. */
  lemma GivesUp(cfg: SdConfig, sd: Sd, now: u32, sid: u16, eid: u16)
    requires Distinct(sd) && CountsBounded(sd) && Unacknowledged(sd, sid, eid) && ProviderOf(sd.consumers, sid).Some?
    requires TrackerOf(sd, sid, eid).value.active && !TrackerOf(sd, sid, eid).value.needsUnsubscribe
    ensures var t := TrackerOf(sd, sid, eid).value;
      var sd' := Step(cfg, sd, ProcessRenewals, now).0;
      && TrackerOf(sd', sid, eid).Some?
      && (!TrackerOf(sd', sid, eid).value.active
          <==> Budget(t) == 0 && TimeAfterOrEq(now, Wrap32(t.lastSentMs + 1000 * cfg.subscriptionTtl)))
  {
    hide Step, TimeAfterOrEq, Distinct, TrackerOf;
    TrackerStepIs(cfg, sd, ProcessRenewals, now, sid, eid);
    TrackerHasKey(sd, sid, eid);
    CountOf(sd, sid, eid);
  }

  // --------------------------------- from the application's call to giving up

  lemma {:induction false} CountsRun(cfg: SdConfig, sd: Sd, run: seq<Timed>)
    requires CountsBounded(sd)
    ensures CountsBounded(Run(cfg, sd, run).0)
    decreases |run|
  {
    hide Step, CountsBounded;
    if run != [] {
      CountsStep(cfg, sd, run[0].e, run[0].now);
      CountsRun(cfg, Step(cfg, sd, run[0].e, run[0].now).0, run[1..]);
    }
  }

  /** A run without stimulus on which the application does not unsubscribe either. */
  ghost predicate LeftAlone(cfg: SdConfig, sd: Sd, run: seq<Timed>, sid: u16, eid: u16) {
    QuietRun(cfg, sd, run, sid, eid) && NoUnsubscribeCall(run, sid, eid)
  }

  ghost predicate NoUnsubscribeCall(run: seq<Timed>, sid: u16, eid: u16) {
    forall i :: 0 <= i < |run| ==> !(run[i].e.UnsubscribeCall? && run[i].e.sid == sid && run[i].e.eid == eid)
  }

  ghost predicate Trying(sd: Sd, sid: u16, eid: u16) {
    && Distinct(sd) && CountsBounded(sd) && Unacknowledged(sd, sid, eid)
    && !TrackerOf(sd, sid, eid).value.needsUnsubscribe
  }

  /** Without an unsubscribe the budget is spent on nothing but subscribe messages, also in
      the step that gives up. */
  lemma BudgetExactStep(cfg: SdConfig, sd: Sd, e: Event, now: u32, sid: u16, eid: u16)
    requires Trying(sd, sid, eid) && Quiet(sd, e, sid, eid) && !(e.UnsubscribeCall? && e.sid == sid && e.eid == eid)
    ensures var (sd', out) := Step(cfg, sd, e, now);
      && Trying(sd', sid, eid)
      && |Select(out, Subscribes(sid, eid))| + Budget(TrackerOf(sd', sid, eid).value)
        == Budget(TrackerOf(sd, sid, eid).value)
  {
    hide Step, Select, TimeAfterOrEq, Distinct, TrackerOf, CountsBounded;
    BudgetStep(cfg, sd, e, now, sid, eid);
    TrackerStepIs(cfg, sd, e, now, sid, eid);
    TrackerHasKey(sd, sid, eid);
    CountOf(sd, sid, eid);
    if e.ProcessRenewals? {
      RenewalSends(cfg, sd, now, sid, eid, Subscribes(sid, eid));
      RenewTopics(cfg, sd.consumers, TrackerOf(sd, sid, eid).value, now);
    }
  }

  lemma {:induction false} BudgetExact(cfg: SdConfig, sd: Sd, run: seq<Timed>, sid: u16, eid: u16)
    requires Trying(sd, sid, eid) && LeftAlone(cfg, sd, run, sid, eid)
    ensures var (sd', log) := Run(cfg, sd, run);
      && Trying(sd', sid, eid)
      && |Select(log, Subscribes(sid, eid))| + Budget(TrackerOf(sd', sid, eid).value)
        == Budget(TrackerOf(sd, sid, eid).value)
    decreases |run|
  {
    hide Step, Quiet, Concerns, TrackerOf, Distinct, CountsBounded, Budget;
    if run == [] {
      assert Select([], Subscribes(sid, eid)) == [];
    } else {
      var (sd1, out1) := Step(cfg, sd, run[0].e, run[0].now);
      BudgetExactStep(cfg, sd, run[0].e, run[0].now, sid, eid);
      BudgetExact(cfg, sd1, run[1..], sid, eid);
      SelectConcat(out1, Run(cfg, sd1, run[1..]).1, Subscribes(sid, eid));
    }
  }

  /** From any reachable state: a subscription the application asks for, with `r` retries used
      up before, and that nothing answers, is sent exactly 3 - r times before it is given up,
      and has been sent 3 - r - b times while it may still send b. */
  lemma SendsAfterSubscribe(cfg: SdConfig, before: seq<Timed>, sid: u16, eid: u16, ttl: u16, now: u32,
                            after: seq<Timed>)
    requires var sd0 := Run(cfg, EMPTY, before).0;
      && SubscribeTo(cfg, sd0.trackers, sid, eid, ttl, now).1
      && (TrackerOf(sd0, sid, eid).Some? ==> !TrackerOf(sd0, sid, eid).value.needsUnsubscribe)
      && LeftAlone(cfg, Step(cfg, sd0, SubscribeCall(sid, eid, ttl), now).0, after, sid, eid)
    ensures var sd0 := Run(cfg, EMPTY, before).0;
      var used := if TrackerOf(sd0, sid, eid).Some? then TrackerOf(sd0, sid, eid).value.ackRetryCount else 0;
      var (sd, log) := Run(cfg, Step(cfg, sd0, SubscribeCall(sid, eid, ttl), now).0, after);
      && used <= 2 && TrackerOf(sd, sid, eid).Some?
      && |Select(log, Subscribes(sid, eid))| == 3 - used - Budget(TrackerOf(sd, sid, eid).value)
      && (!TrackerOf(sd, sid, eid).value.active ==> |Select(log, Subscribes(sid, eid))| == 3 - used)
  {
    hide Run, Select, Distinct, CountsBounded, LeftAlone;
    var sd0 := Run(cfg, EMPTY, before).0;
    EmptyIsSound();
    RunDistinct(cfg, EMPTY, before);
    CountsRun(cfg, EMPTY, before);
    SubscribeStarts(cfg, sd0, sid, eid, ttl, now);
    BudgetExact(cfg, Step(cfg, sd0, SubscribeCall(sid, eid, ttl), now).0, after, sid, eid);
  }

  lemma EmptyIsSound()
    ensures Distinct(EMPTY) && CountsBounded(EMPTY)
  {
  }

  lemma SubscribeStarts(cfg: SdConfig, sd: Sd, sid: u16, eid: u16, ttl: u16, now: u32)
    requires Distinct(sd) && CountsBounded(sd) && SubscribeTo(cfg, sd.trackers, sid, eid, ttl, now).1
    requires TrackerOf(sd, sid, eid).Some? ==> !TrackerOf(sd, sid, eid).value.needsUnsubscribe
    ensures var used := if TrackerOf(sd, sid, eid).Some? then TrackerOf(sd, sid, eid).value.ackRetryCount else 0;
      var sd' := Step(cfg, sd, SubscribeCall(sid, eid, ttl), now).0;
      used <= 2 && Trying(sd', sid, eid) && Budget(TrackerOf(sd', sid, eid).value) == 3 - used
  {
    StepDistinct(cfg, sd, SubscribeCall(sid, eid, ttl), now);
    var sd' := Step(cfg, sd, SubscribeCall(sid, eid, ttl), now).0;
    TrackerIndexIs(sd'.trackers, sid, eid, TrackerIndex(sd.trackers, sid, eid));
  }

  /** A pass that acts on the subscription: it is to be sent, or its retry interval is over. */
  predicate Acts(cfg: SdConfig, sd: Sd, now: u32, sid: u16, eid: u16) {
    TrackerOf(sd, sid, eid).Some?
    && var t := TrackerOf(sd, sid, eid).value;
      t.needsSend || TimeAfterOrEq(now, Wrap32(t.lastSentMs + 1000 * cfg.subscriptionTtl))
  }

  /** Passes at times at which each acts. */
  ghost predicate ActingPasses(cfg: SdConfig, sd: Sd, run: seq<Timed>, sid: u16, eid: u16)
    decreases |run|
  {
    run == [] || (run[0].e.ProcessRenewals? && Acts(cfg, sd, run[0].now, sid, eid)
                  && ActingPasses(cfg, Step(cfg, sd, run[0].e, run[0].now).0, run[1..], sid, eid))
  }

  /** While the service is FOUND, an unanswered subscription is sent once by each pass that
      acts, until its budget is used up, and the next one makes it inactive: after budget + 1
      of them it is given up, and not before. */
  lemma {:induction false} GivenUpAfter(cfg: SdConfig, sd: Sd, run: seq<Timed>, sid: u16, eid: u16)
    requires Trying(sd, sid, eid) && TrackerOf(sd, sid, eid).value.active && ProviderOf(sd.consumers, sid).Some?
    requires ActingPasses(cfg, sd, run, sid, eid) && |run| <= Budget(TrackerOf(sd, sid, eid).value) + 1
    ensures var (sd', log) := Run(cfg, sd, run);
      var budget := Budget(TrackerOf(sd, sid, eid).value);
      && TrackerOf(sd', sid, eid).Some?
      && |Select(log, Subscribes(sid, eid))| == (if |run| <= budget then |run| else budget)
      && (TrackerOf(sd', sid, eid).value.active <==> |run| <= budget)
    decreases |run|
  {
    hide Step, Concerns, TrackerOf, Distinct, CountsBounded, Acts;
    CountOf(sd, sid, eid);
    if run == [] {
      assert Select([], Subscribes(sid, eid)) == [];
    } else {
      var (sd1, out1) := Step(cfg, sd, ProcessRenewals, run[0].now);
      ActingPass(cfg, sd, run[0].now, sid, eid);
      if TrackerOf(sd1, sid, eid).value.active {
        GivenUpAfter(cfg, sd1, run[1..], sid, eid);
      } else {
        assert run[1..] == [];
        assert Select([], Subscribes(sid, eid)) == [];
      }
      SelectConcat(out1, Run(cfg, sd1, run[1..]).1, Subscribes(sid, eid));
    }
  }

  lemma ActingPass(cfg: SdConfig, sd: Sd, now: u32, sid: u16, eid: u16)
    requires Trying(sd, sid, eid) && TrackerOf(sd, sid, eid).value.active && ProviderOf(sd.consumers, sid).Some?
    requires Acts(cfg, sd, now, sid, eid)
    ensures var (sd', out) := Step(cfg, sd, ProcessRenewals, now);
      var budget := Budget(TrackerOf(sd, sid, eid).value);
      && Trying(sd', sid, eid) && ProviderOf(sd'.consumers, sid) == ProviderOf(sd.consumers, sid)
      && budget >= 0
      && (if budget == 0 then Select(out, Subscribes(sid, eid)) == [] && !TrackerOf(sd', sid, eid).value.active
          else |Select(out, Subscribes(sid, eid))| == 1 && TrackerOf(sd', sid, eid).value.active
               && Budget(TrackerOf(sd', sid, eid).value) == budget - 1)
  {
    hide Select, TimeAfterOrEq, Distinct, TrackerOf, CountsBounded;
    BudgetExactStep(cfg, sd, ProcessRenewals, now, sid, eid);
    TrackerStepIs(cfg, sd, ProcessRenewals, now, sid, eid);
    TrackerHasKey(sd, sid, eid);
    CountOf(sd, sid, eid);
    RenewalSends(cfg, sd, now, sid, eid, Subscribes(sid, eid));
    RenewTopics(cfg, sd.consumers, TrackerOf(sd, sid, eid).value, now);
  }

  // -------------------------------------------------------------------- revival

  /** A reboot, a change of address or a re-find makes every subscription the application
      holds on the service, and that has no unsubscribe pending, go out again to the new
      provider at the next renewal pass, also those given up or rejected before. */
  lemma Revival(cfg: SdConfig, sd: Sd, e: Event, now: u32, later: u32, sid: u16, eid: u16)
    requires Distinct(sd) && Flags(sd, e, sid) && TrackerOf(sd, sid, eid).Some?
    ensures var t := TrackerOf(sd, sid, eid).value;
      var sd1 := Step(cfg, sd, e, now).0;
      var out := Step(cfg, sd1, ProcessRenewals, later).1;
      t.appRegistered && !t.needsUnsubscribe ==>
        Select(out, Subscribes(sid, eid)) == [Unicast(e.provider, SubscribeEvent(sid, eid, t.requestedTtl))]
  {
    hide Select, TimeAfterOrEq, Distinct, TrackerOf;
    var t := TrackerOf(sd, sid, eid).value;
    var sd1 := Step(cfg, sd, e, now).0;
    DistinctParts(sd);
    StepDistinct(cfg, sd, e, now);
    DistinctWhole(sd1);
    TrackerStepIs(cfg, sd, e, now, sid, eid);
    TrackerHasKey(sd, sid, eid);
    FoundAfter(cfg, sd, e, now, sid);
    RenewalSends(cfg, sd1, later, sid, eid, Subscribes(sid, eid));
    RenewTopics(cfg, sd1.consumers, TrackerOf(sd1, sid, eid).value, later);
  }

  lemma FoundAfter(cfg: SdConfig, sd: Sd, e: Event, now: u32, sid: u16)
    requires DistinctConsumers(sd.consumers) && Flags(sd, e, sid)
    ensures ProviderOf(Step(cfg, sd, e, now).0.consumers, sid) == Some(e.provider)
  {
    hide FlagResubscribe;
    var i := ConsumerIndex(sd.consumers, sid);
    ConsumerIndexIs(Step(cfg, sd, e, now).0.consumers, i);
  }

  /** A subscription the provider refused is retried nevertheless once the provider comes
      back: the refusal clears only `active`, not the application's registration. */
  lemma RefusedIsRevived(cfg: SdConfig, sd: Sd, result: u8, granted: u16, e: Event, now: u32, later: u32, sid: u16,
                         eid: u16)
    requires Distinct(sd) && TrackerOf(sd, sid, eid).Some? && result != 0 && Flags(sd, e, sid)
    requires TrackerOf(sd, sid, eid).value.active && TrackerOf(sd, sid, eid).value.appRegistered
    requires !TrackerOf(sd, sid, eid).value.needsUnsubscribe
    ensures var refused := Step(cfg, sd, RxAck(sid, eid, result, granted), now).0;
      var back := Step(cfg, refused, e, now).0;
      && TrackerOf(refused, sid, eid).Some? && !TrackerOf(refused, sid, eid).value.active
      && Select(Step(cfg, back, ProcessRenewals, later).1, Subscribes(sid, eid))
         == [Unicast(e.provider, SubscribeEvent(sid, eid, TrackerOf(sd, sid, eid).value.requestedTtl))]
  {
    hide Select, TimeAfterOrEq, Distinct, TrackerOf;
    var a := RxAck(sid, eid, result, granted);
    DistinctParts(sd);
    StepDistinct(cfg, sd, a, now);
    DistinctWhole(Step(cfg, sd, a, now).0);
    TrackerStepIs(cfg, sd, a, now, sid, eid);
    TrackerHasKey(sd, sid, eid);
    Revival(cfg, Step(cfg, sd, a, now).0, e, now, later, sid, eid);
  }
}
