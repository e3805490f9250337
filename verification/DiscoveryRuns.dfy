/** Runs of the discovery tables, and the parts of their output log. */
module DiscoveryLog {
  import opened Words
  import opened SdMessages
  import opened DiscoverySpec

  datatype Timed = Timed(e: Event, now: u32)

  function Run(cfg: SdConfig, sd: Sd, run: seq<Timed>): (Sd, seq<Output>)
    decreases |run|
  {
    if run == [] then (sd, [])
    else
      var (sd1, out1) := Step(cfg, sd, run[0].e, run[0].now);
      var (sd2, out2) := Run(cfg, sd1, run[1..]);
      (sd2, out1 + out2)
  }

  /** The part of a log that concerns one service or one subscription. */
  datatype Topic =
    | Callbacks(sid: u16)
    | Finds(sid: u16)
    | Subscribes(sid: u16, eid: u16)
    | Unsubscribes(sid: u16, eid: u16)

  predicate Concerns(o: Output, t: Topic) {
    match t
    case Callbacks(sid) => (o.FoundCallback? || o.LostCallback?) && o.serviceId == sid
    case Finds(sid) => o == Broadcast(FindService(sid))
    case Subscribes(sid, eid) => o.Unicast? && o.msg.SubscribeEvent? && o.msg.serviceId == sid && o.msg.eventId == eid
    case Unsubscribes(sid, eid) => o.Unicast? && o.msg.Unsubscribe? && o.msg.serviceId == sid && o.msg.eventId == eid
  }

  function Select(log: seq<Output>, t: Topic): seq<Output> {
    if log == [] then []
    else Select(log[..|log| - 1], t) + (if Concerns(log[|log| - 1], t) then [log[|log| - 1]] else [])
  }

  lemma {:induction false} SelectConcat(a: seq<Output>, b: seq<Output>, t: Topic)
    ensures Select(a + b, t) == Select(a, t) + Select(b, t)
    decreases |b|
  {
    hide Concerns;
    if b == [] {
      assert a + b == a;
    } else {
      var n := |b| - 1;
      assert (a + b)[..|a + b| - 1] == a + b[..n];
      SelectConcat(a, b[..n], t);
    }
  }

  lemma {:induction false} SelectNone(log: seq<Output>, t: Topic)
    requires forall i :: 0 <= i < |log| ==> !Concerns(log[i], t)
    ensures Select(log, t) == []
    decreases |log|
  {
    if log != [] {
      SelectNone(log[..|log| - 1], t);
    }
  }

  lemma SelectPair(a: Output, b: Output, t: Topic)
    ensures Select([a, b], t) == (if Concerns(a, t) then [a] else []) + (if Concerns(b, t) then [b] else [])
    ensures Select([a], t) == if Concerns(a, t) then [a] else []
  {
    assert [a, b][..1] == [a] && [a][..0] == [];
    assert Select([], t) == [];
    assert Select([a, b], t) == Select([a], t) + (if Concerns(b, t) then [b] else []);
  }

  // Distinct keys: what `find_*` relies on.

  ghost predicate DistinctConsumers(s: seq<ConsumerEntry>) {
    forall i, j :: 0 <= i < j < |s| ==> s[i].serviceId != s[j].serviceId
  }

  ghost predicate DistinctTrackers(s: seq<SubTracker>) {
    forall i, j :: 0 <= i < j < |s| ==> !(s[i].serviceId == s[j].serviceId && s[i].eventId == s[j].eventId)
  }

  lemma ConsumerIndexIs(s: seq<ConsumerEntry>, i: nat)
    requires DistinctConsumers(s) && i < |s|
    ensures ConsumerIndex(s, s[i].serviceId) == i
  {
  }

  lemma TrackerIndexIs(s: seq<SubTracker>, sid: u16, eid: u16, i: nat)
    requires DistinctTrackers(s) && i < |s| && IsTracker(s[i], sid, eid)
    ensures TrackerIndex(s, sid, eid) == i
  {
  }

  /** No operation ever enters a key twice. */
  lemma StepDistinct(cfg: SdConfig, sd: Sd, e: Event, now: u32)
    requires DistinctConsumers(sd.consumers) && DistinctTrackers(sd.trackers)
    ensures var sd' := Step(cfg, sd, e, now).0;
      DistinctConsumers(sd'.consumers) && DistinctTrackers(sd'.trackers)
  {
    hide Step;
    ConsumersDistinct(cfg, sd, e, now);
    TrackersDistinct(cfg, sd, e, now);
  }

  lemma ConsumersDistinct(cfg: SdConfig, sd: Sd, e: Event, now: u32)
    requires DistinctConsumers(sd.consumers)
    ensures DistinctConsumers(Step(cfg, sd, e, now).0.consumers)
  {
    hide SessionId, FindStep, TtlStep, FlagResubscribe;
    if !e.FindCall? {
      ConsumerKeys(cfg, sd, e, now);
    }
  }

  lemma ConsumerKeys(cfg: SdConfig, sd: Sd, e: Event, now: u32)
    requires !e.FindCall?
    ensures var s' := Step(cfg, sd, e, now).0.consumers;
      |s'| == |sd.consumers| && forall i :: 0 <= i < |s'| ==> s'[i].serviceId == sd.consumers[i].serviceId
  {
    hide SessionId, NextRetry, TimeAfter, TimeAfterOrEq, FlagResubscribe;
  }

  lemma TrackersDistinct(cfg: SdConfig, sd: Sd, e: Event, now: u32)
    requires DistinctTrackers(sd.trackers)
    ensures DistinctTrackers(Step(cfg, sd, e, now).0.trackers)
  {
    hide SessionId, RenewStep, Flagged;
    if e.SubscribeCall? {
      assert forall k :: 0 <= k < TrackerIndex(sd.trackers, e.sid, e.eid) ==> !IsTracker(sd.trackers[k], e.sid, e.eid);
    } else {
      TrackerKeys(cfg, sd, e, now);
    }
  }

  lemma TrackerKeys(cfg: SdConfig, sd: Sd, e: Event, now: u32)
    requires !e.SubscribeCall?
    ensures var s' := Step(cfg, sd, e, now).0.trackers;
      |s'| == |sd.trackers|
      && forall i :: 0 <= i < |s'| ==>
        s'[i].serviceId == sd.trackers[i].serviceId && s'[i].eventId == sd.trackers[i].eventId
  {
    hide SessionId, TimeAfter, TimeAfterOrEq;
  }

  // --------------------------------------------------- a loop's output for one topic

  /** When only entry `i` can produce output on a topic, the loop's output on it is that
      entry's. */
  lemma {:induction false} SelectTtls(s: seq<ConsumerEntry>, now: u32, t: Topic, i: nat)
    requires forall k :: 0 <= k < |s| && k != i ==> Select(TtlStep(s[k], now).1, t) == []
    ensures Select(TtlsOutput(s, now), t) == if i < |s| then Select(TtlStep(s[i], now).1, t) else []
    decreases |s|
  {
    hide Select, TtlStep;
    if s == [] {
      SelectNone([], t);
    } else {
      var n := |s| - 1;
      SelectTtls(s[..n], now, t, i);
      SelectConcat(TtlsOutput(s[..n], now), TtlStep(s[n], now).1, t);
    }
  }

  lemma {:induction false} SelectFinds(cfg: SdConfig, s: seq<ConsumerEntry>, now: u32, t: Topic, i: nat)
    requires forall k :: 0 <= k < |s| && k != i ==> Select(FindStep(cfg, s[k], now).1, t) == []
    ensures Select(FindsOutput(cfg, s, now), t) == if i < |s| then Select(FindStep(cfg, s[i], now).1, t) else []
    decreases |s|
  {
    hide Select, FindStep;
    if s == [] {
      SelectNone([], t);
    } else {
      var n := |s| - 1;
      SelectFinds(cfg, s[..n], now, t, i);
      SelectConcat(FindsOutput(cfg, s[..n], now), FindStep(cfg, s[n], now).1, t);
    }
  }

  lemma {:induction false} SelectRenewals(cfg: SdConfig, cs: seq<ConsumerEntry>, s: seq<SubTracker>, now: u32,
                                          t: Topic, i: nat)
    requires forall k :: 0 <= k < |s| && k != i ==> Select(RenewStep(cfg, cs, s[k], now).1, t) == []
    ensures Select(RenewalsOutput(cfg, cs, s, now), t) == if i < |s| then Select(RenewStep(cfg, cs, s[i], now).1, t)
      else []
    decreases |s|
  {
    hide Select, RenewStep;
    if s == [] {
      SelectNone([], t);
    } else {
      var n := |s| - 1;
      SelectRenewals(cfg, cs, s[..n], now, t, i);
      SelectConcat(RenewalsOutput(cfg, cs, s[..n], now), RenewStep(cfg, cs, s[n], now).1, t);
    }
  }

  lemma {:induction false} OffersOnlyOffers(s: seq<ProviderEntry>, localAddr: Address, now: u32, t: Topic)
    ensures Select(OffersOutput(s, localAddr, now), t) == []
    decreases |s|
  {
    hide Select, OfferStep;
    if s == [] {
      SelectNone([], t);
    } else {
      var n := |s| - 1;
      OffersOnlyOffers(s[..n], localAddr, now, t);
      SelectConcat(OffersOutput(s[..n], localAddr, now), OfferStep(s[n], localAddr, now).1, t);
      OfferOnlyOffer(s[n], localAddr, now, t);
    }
  }

  lemma OfferOnlyOffer(pe: ProviderEntry, localAddr: Address, now: u32, t: Topic)
    ensures Select(OfferStep(pe, localAddr, now).1, t) == []
  {
    hide OfferDue, Select;
    SelectNone(OfferStep(pe, localAddr, now).1, t);
  }

  lemma {:induction false} RepliesOnlyOffers(s: seq<ProviderEntry>, localAddr: Address, sid: u16, source: Address,
                                             t: Topic)
    ensures Select(FindReplies(s, localAddr, sid, source), t) == []
    decreases |s|
  {
    if s != [] {
      var n := |s| - 1;
      RepliesOnlyOffers(s[..n], localAddr, sid, source, t);
      var last := if s[n].offered && (sid == 0xFFFF || s[n].serviceId == sid)
        then [Unicast(source, OfferOf(s[n], localAddr))] else [];
      SelectConcat(FindReplies(s[..n], localAddr, sid, source), last, t);
      SelectNone(last, t);
    }
  }

  /** Which operations can put anything on a topic at all. */
  predicate MaySpeak(e: Event, t: Topic) {
    match t
    case Callbacks(sid) => e.ProcessTtls? || e.ProcessFinds? || (e.RxOffer? && e.sid == sid)
    case Finds(_) => e.ProcessFinds?
    case Subscribes(_, _) => e.ProcessRenewals?
    case Unsubscribes(_, _) => e.ProcessRenewals?
  }

  lemma Silent(cfg: SdConfig, sd: Sd, e: Event, now: u32, t: Topic)
    requires !MaySpeak(e, t)
    ensures Select(Step(cfg, sd, e, now).1, t) == []
  {
    hide TimeAfter, TimeAfterOrEq, NextRetry, SessionId, OffersOutput, FindReplies;
    var out := Step(cfg, sd, e, now).1;
    match e {
      case ProcessOffers => OffersOnlyOffers(sd.providers, sd.localAddr, now, t);
      case RxFind(sid, source) => RepliesOnlyOffers(sd.providers, sd.localAddr, sid, source, t);
      case ProcessTtls => TtlsSilent(sd.consumers, now, t);
      case ProcessFinds => FindsSilent(cfg, sd.consumers, now, t);
      case ProcessRenewals => RenewalsSilent(cfg, sd.consumers, sd.trackers, now, t);
      case _ => SelectNone(out, t);
    }
  }

  lemma TtlsSilent(s: seq<ConsumerEntry>, now: u32, t: Topic)
    requires !t.Callbacks?
    ensures Select(TtlsOutput(s, now), t) == []
  {
    forall k | 0 <= k < |s|
      ensures Select(TtlStep(s[k], now).1, t) == []
    {
      SelectNone(TtlStep(s[k], now).1, t);
    }
    SelectTtls(s, now, t, |s|);
  }

  lemma FindsSilent(cfg: SdConfig, s: seq<ConsumerEntry>, now: u32, t: Topic)
    requires !t.Callbacks? && !t.Finds?
    ensures Select(FindsOutput(cfg, s, now), t) == []
  {
    hide NextRetry;
    forall k | 0 <= k < |s|
      ensures Select(FindStep(cfg, s[k], now).1, t) == []
    {
      SelectNone(FindStep(cfg, s[k], now).1, t);
    }
    SelectFinds(cfg, s, now, t, |s|);
  }

  lemma RenewalsSilent(cfg: SdConfig, cs: seq<ConsumerEntry>, s: seq<SubTracker>, now: u32, t: Topic)
    requires t.Callbacks? || t.Finds?
    ensures Select(RenewalsOutput(cfg, cs, s, now), t) == []
  {
    forall k | 0 <= k < |s|
      ensures Select(RenewStep(cfg, cs, s[k], now).1, t) == []
    {
      SelectNone(RenewStep(cfg, cs, s[k], now).1, t);
    }
    SelectRenewals(cfg, cs, s, now, t, |s|);
  }
}

/** What the application can conclude from its found and lost callbacks. */
module CallbackView {
  import opened Words
  import opened SdMessages
  import opened DiscoverySpec
  import opened DiscoveryLog

  /** The address the last callback for a service left the application with, if any. */
  function Belief(log: seq<Output>, sid: u16): Option<Address> {
    var calls := Select(log, Callbacks(sid));
    if calls == [] || calls[|calls| - 1].LostCallback? then None else Some(BeliefOf(calls[|calls| - 1]))
  }

  function BeliefOf(o: Output): Address {
    if o.FoundCallback? then o.addr else []
  }

  /** One entry against the log so far. */
  ghost predicate Seen(ce: ConsumerEntry, log: seq<Output>) {
    var calls := Select(log, Callbacks(ce.serviceId));
    && (ce.state == FOUND ==>
          calls != [] && calls[|calls| - 1] == FoundCallback(ce.serviceId, ce.addr) && ce.sessionValid)
    && (ce.state == NOT_FOUND ==> calls != [] && calls[|calls| - 1] == LostCallback(ce.serviceId))
  }

  ghost predicate View(sd: Sd, log: seq<Output>) {
    && DistinctConsumers(sd.consumers) && DistinctTrackers(sd.trackers)
    && (forall i :: 0 <= i < |sd.consumers| ==> Seen(sd.consumers[i], log))
    && (forall sid: u16 :: ConsumerIndex(sd.consumers, sid) == |sd.consumers| ==> Select(log, Callbacks(sid)) == [])
  }

  /** An entry may keep its state and stay silent, or change as it last said. */
  ghost predicate Follows(ce: ConsumerEntry, ce': ConsumerEntry, said: seq<Output>) {
    && ce'.serviceId == ce.serviceId
    && (|| (said == [] && ce'.state == ce.state && (ce.state == FOUND ==>
      ce'.addr == ce.addr && (ce.sessionValid ==> ce'.sessionValid)))
        || (said != [] && said[|said| - 1] == LostCallback(ce.serviceId) && ce'.state == NOT_FOUND)
        || (said != [] && said[|said| - 1] == FoundCallback(ce.serviceId, ce'.addr) && ce'.state == FOUND
            && ce'.sessionValid))
  }

  lemma OfferEntry(sd: Sd, sid: u16, major: u8, ttl: u16, session: u16, provider: Address, now: u32, i: nat)
    requires DistinctConsumers(sd.consumers) && i < |sd.consumers|
    ensures var (sd', out) := HandleOffer(sd, sid, major, ttl, session, provider, now);
      var ce := sd.consumers[i];
      && |sd'.consumers| == |sd.consumers|
      && (ce.serviceId == sid ==> Follows(ce, sd'.consumers[i], Select(out, Callbacks(sid))))
      && (ce.serviceId != sid ==> sd'.consumers[i] == ce)
  {
    hide Select, FlagResubscribe;
    var t := Callbacks(sid);
    ConsumerIndexIs(sd.consumers, i);
    SelectNone([], t);
    SelectPair(LostCallback(sid), FoundCallback(sid, provider), t);
    SelectPair(FoundCallback(sid, provider), FoundCallback(sid, provider), t);
  }

  lemma TtlEntry(s: seq<ConsumerEntry>, now: u32, i: nat)
    requires DistinctConsumers(s) && i < |s|
    ensures Follows(s[i], TtlStep(s[i], now).0, Select(TtlsOutput(s, now), Callbacks(s[i].serviceId)))
  {
    hide TimeAfter, Select;
    var t := Callbacks(s[i].serviceId);
    forall k | 0 <= k < |s| && k != i
      ensures Select(TtlStep(s[k], now).1, t) == []
    {
      SelectNone(TtlStep(s[k], now).1, t);
    }
    SelectTtls(s, now, t, i);
    SelectNone([], t);
    SelectPair(PeerExpired(s[i].addr), LostCallback(s[i].serviceId), t);
  }

  lemma FindEntry(cfg: SdConfig, s: seq<ConsumerEntry>, now: u32, i: nat)
    requires DistinctConsumers(s) && i < |s|
    ensures Follows(s[i], FindStep(cfg, s[i], now).0, Select(FindsOutput(cfg, s, now), Callbacks(s[i].serviceId)))
  {
    hide TimeAfterOrEq, NextRetry, Select;
    var t := Callbacks(s[i].serviceId);
    forall k | 0 <= k < |s| && k != i
      ensures Select(FindStep(cfg, s[k], now).1, t) == []
    {
      SelectNone(FindStep(cfg, s[k], now).1, t);
    }
    SelectFinds(cfg, s, now, t, i);
    SelectNone([], t);
    SelectPair(Broadcast(FindService(s[i].serviceId)), LostCallback(s[i].serviceId), t);
  }

  /** What one operation does to the entry of a service, and says about it. */
  lemma EntryStep(cfg: SdConfig, sd: Sd, e: Event, now: u32, i: nat)
    requires DistinctConsumers(sd.consumers) && i < |sd.consumers|
    requires !(e.FindCall? && e.sid == sd.consumers[i].serviceId)
    ensures var (sd', out) := Step(cfg, sd, e, now);
      && |sd'.consumers| >= |sd.consumers|
      && Follows(sd.consumers[i], sd'.consumers[i], Select(out, Callbacks(sd.consumers[i].serviceId)))
  {
    hide SessionId, Select, HandleOffer, TtlStep, FindStep, RenewStep, OfferStep;
    match e {
      case ProcessTtls => TtlEntry(sd.consumers, now, i);
      case ProcessFinds => FindEntry(cfg, sd.consumers, now, i);
      case RxOffer(sid, major, ttl, session, provider) =>
        OfferEntry(sd, sid, major, ttl, session, provider, now, i);
        if sid != sd.consumers[i].serviceId {
          Silent(cfg, sd, e, now, Callbacks(sd.consumers[i].serviceId));
        }
      case _ => Silent(cfg, sd, e, now, Callbacks(sd.consumers[i].serviceId));
    }
  }

  lemma ViewStep(cfg: SdConfig, sd: Sd, log: seq<Output>, e: Event, now: u32)
    requires View(sd, log)
    ensures View(Step(cfg, sd, e, now).0, log + Step(cfg, sd, e, now).1)
  {
    hide Step, Select;
    var (sd', out) := Step(cfg, sd, e, now);
    StepDistinct(cfg, sd, e, now);
    TableGrows(cfg, sd, e, now);
    forall i | 0 <= i < |sd'.consumers|
      ensures Seen(sd'.consumers[i], log + out)
    {
      SelectConcat(log, out, Callbacks(sd'.consumers[i].serviceId));
      if i < |sd.consumers| && !(e.FindCall? && e.sid == sd.consumers[i].serviceId) {
        EntryStep(cfg, sd, e, now, i);
        assert Seen(sd.consumers[i], log);
      }
    }
    forall sid: u16 | ConsumerIndex(sd'.consumers, sid) == |sd'.consumers|
      ensures Select(log + out, Callbacks(sid)) == []
    {
      SelectConcat(log, out, Callbacks(sid));
      UnknownSilent(cfg, sd, e, now, sid);
    }
  }

  /** The table only grows, by searching entries, and `find` leaves an entry searching. */
  lemma TableGrows(cfg: SdConfig, sd: Sd, e: Event, now: u32)
    requires DistinctConsumers(sd.consumers)
    ensures var sd' := Step(cfg, sd, e, now).0;
      && |sd'.consumers| >= |sd.consumers|
      && (forall i :: 0 <= i < |sd.consumers| ==> sd'.consumers[i].serviceId == sd.consumers[i].serviceId)
      && (forall i :: |sd.consumers| <= i < |sd'.consumers| ==> sd'.consumers[i].state == SEARCHING)
      && (e.FindCall? ==> forall i :: 0 <= i < |sd.consumers| && sd.consumers[i].serviceId == e.sid ==>
          sd'.consumers[i].state == SEARCHING)
  {
    hide TimeAfter, TimeAfterOrEq, NextRetry, SessionId;
  }

  /** Nothing is said about a service that is not in the table after the operation. */
  lemma UnknownSilent(cfg: SdConfig, sd: Sd, e: Event, now: u32, sid: u16)
    requires DistinctConsumers(sd.consumers)
    requires ConsumerIndex(Step(cfg, sd, e, now).0.consumers, sid) == |Step(cfg, sd, e, now).0.consumers|
    ensures ConsumerIndex(sd.consumers, sid) == |sd.consumers|
    ensures Select(Step(cfg, sd, e, now).1, Callbacks(sid)) == []
  {
    hide Step, Select;
    var s, s' := sd.consumers, Step(cfg, sd, e, now).0.consumers;
    TableGrows(cfg, sd, e, now);
    assert forall k :: 0 <= k < |s| ==> s[k].serviceId == s'[k].serviceId != sid;
    MissingSilent(cfg, sd, e, now, sid);
  }

  lemma MissingSilent(cfg: SdConfig, sd: Sd, e: Event, now: u32, sid: u16)
    requires ConsumerIndex(sd.consumers, sid) == |sd.consumers|
    ensures Select(Step(cfg, sd, e, now).1, Callbacks(sid)) == []
  {
    hide TimeAfter, TimeAfterOrEq, NextRetry, SessionId, Select, FlagResubscribe, RenewStep, OfferStep;
    var t := Callbacks(sid);
    var s := sd.consumers;
    if e.ProcessTtls? {
      forall k | 0 <= k < |s|
        ensures Select(TtlStep(s[k], now).1, t) == []
      {
        SelectNone(TtlStep(s[k], now).1, t);
      }
      SelectTtls(s, now, t, |s|);
    } else if e.ProcessFinds? {
      forall k | 0 <= k < |s|
        ensures Select(FindStep(cfg, s[k], now).1, t) == []
      {
        SelectNone(FindStep(cfg, s[k], now).1, t);
      }
      SelectFinds(cfg, s, now, t, |s|);
    } else if e.RxOffer? && e.sid == sid {
      SelectNone([], t);
    } else {
      Silent(cfg, sd, e, now, t);
    }
  }

  lemma {:induction false} ViewRun(cfg: SdConfig, sd: Sd, log: seq<Output>, run: seq<Timed>)
    requires View(sd, log)
    ensures View(Run(cfg, sd, run).0, log + Run(cfg, sd, run).1)
    decreases |run|
  {
    hide View, Step;
    if run == [] {
      assert log + [] == log;
    } else {
      var (sd1, out1) := Step(cfg, sd, run[0].e, run[0].now);
      ViewStep(cfg, sd, log, run[0].e, run[0].now);
      ViewRun(cfg, sd1, log + out1, run[1..]);
      assert log + out1 + Run(cfg, sd1, run[1..]).1 == log + (out1 + Run(cfg, sd1, run[1..]).1);
    }
  }

  /** On every run from empty tables: the service identifiers of the consumer table are
      distinct; a FOUND entry's last callback is found, with exactly its current provider
      address, and its session is valid; a NOT_FOUND entry's last callback is lost. */
  lemma CallbackHistory(cfg: SdConfig, localAddr: Address, run: seq<Timed>)
    ensures var (sd, log) := Run(cfg, Sd([], [], [], localAddr), run);
      && DistinctConsumers(sd.consumers) && DistinctTrackers(sd.trackers)
      && (forall i :: 0 <= i < |sd.consumers| ==> Seen(sd.consumers[i], log))
  {
    hide Run;
    var sd := Sd([], [], [], localAddr);
    assert View(sd, []);
    ViewRun(cfg, sd, [], run);
    assert [] + Run(cfg, sd, run).1 == Run(cfg, sd, run).1;
  }

  /** The application's belief is what `get_provider_address` answers. */
  ghost predicate Agrees(sd: Sd, log: seq<Output>, sid: u16) {
    Belief(log, sid) == ProviderOf(sd.consumers, sid)
  }

  /** Agreement survives every operation except one: `find` on a FOUND service drops it to
      SEARCHING without telling the application, and that is exactly when it breaks. */
  lemma AgreementStep(cfg: SdConfig, sd: Sd, log: seq<Output>, e: Event, now: u32, sid: u16)
    requires View(sd, log) && Agrees(sd, log, sid)
    ensures Agrees(Step(cfg, sd, e, now).0, log + Step(cfg, sd, e, now).1, sid)
       <==> !(e.FindCall? && e.sid == sid && ProviderOf(sd.consumers, sid).Some?)
  {
    hide Step, Select;
    var (sd', out) := Step(cfg, sd, e, now);
    var i := ConsumerIndex(sd.consumers, sid);
    ViewStep(cfg, sd, log, e, now);
    TableGrows(cfg, sd, e, now);
    SelectConcat(log, out, Callbacks(sid));
    if e.FindCall? && e.sid == sid {
      Silent(cfg, sd, e, now, Callbacks(sid));
      var j := ConsumerIndex(sd'.consumers, sid);
      if j < |sd'.consumers| && j < |sd.consumers| {
        ConsumerIndexIs(sd.consumers, j);
      }
      assert ProviderOf(sd'.consumers, sid).None?;
    } else if i < |sd.consumers| {
      EntryStep(cfg, sd, e, now, i);
      ConsumerIndexIs(sd'.consumers, i);
    } else {
      NotTaken(cfg, sd, e, now, sid);
      UnknownSilent(cfg, sd, e, now, sid);
    }
  }

  lemma NotTaken(cfg: SdConfig, sd: Sd, e: Event, now: u32, sid: u16)
    requires ConsumerIndex(sd.consumers, sid) == |sd.consumers| && !(e.FindCall? && e.sid == sid)
    ensures ConsumerIndex(Step(cfg, sd, e, now).0.consumers, sid) == |Step(cfg, sd, e, now).0.consumers|
  {
    hide TimeAfter, TimeAfterOrEq, NextRetry, SessionId;
    var s' := Step(cfg, sd, e, now).0.consumers;
    assert forall k :: 0 <= k < |s'| ==> s'[k].serviceId != sid;
  }
}
