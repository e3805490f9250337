/** When a service is offered, and when not, over whole runs of one device's discovery. */
module OfferRuns {
  import opened Words
  import opened SdMessages
  import opened DiscoverySpec

  /** One operation, at a true time. */
  datatype At = At(e: Event, at: nat)

  /** The tables after a run from empty ones. */
  function After(cfg: SdConfig, addr: Address, run: seq<At>): Sd {
    if run == [] then Sd([], [], [], addr)
    else
      var last := run[|run| - 1];
      Step(cfg, After(cfg, addr, run[..|run| - 1]), last.e, Wrap32(last.at)).0
  }

  /** What one more operation hands out. */
  function Handed(cfg: SdConfig, addr: Address, run: seq<At>, x: At): seq<Output> {
    Step(cfg, After(cfg, addr, run), x.e, Wrap32(x.at)).1
  }

  // ------------------------------------------------------------- the history of a service

  predicate IsOffer(o: Output, sid: u16) {
    (o.Broadcast? || o.Unicast?) && o.msg.OfferService? && o.msg.serviceId == sid
  }

  /** The offers of a service among the outputs. */
  function OffersOf(out: seq<Output>, sid: u16): seq<Output> {
    if out == [] then []
    else OffersOf(out[..|out| - 1], sid) + (if IsOffer(out[|out| - 1], sid) then [out[|out| - 1]] else [])
  }

  /** A service that is offered: what its `offer` call said, and when it was last broadcast. */
  datatype Offered = Offered(major: u8, minor: u8, ttl: u16, session: u16, last: Option<nat>)

  /** The table has an entry of the service, or a free one. */
  ghost predicate Room(cfg: SdConfig, s: seq<ProviderEntry>, sid: u16) {
    |s| < cfg.maxServices || exists i :: 0 <= i < |s| && s[i].serviceId == sid
  }

  lemma Accepted(cfg: SdConfig, s: seq<ProviderEntry>, sid: u16, major: u8, minor: u8, ttl: u16, now: u32)
    ensures Offer(cfg, s, sid, major, minor, ttl, now).1 <==> Room(cfg, s, sid)
  {
    hide SessionId;
  }

  /** The last successful `offer` call no `stop_offer` followed, and the last broadcast since. */
  ghost function History(cfg: SdConfig, addr: Address, run: seq<At>, sid: u16): Option<Offered> {
    if run == [] then None
    else
      var before, x := run[..|run| - 1], run[|run| - 1];
      var h := History(cfg, addr, before, sid);
      match x.e
      case OfferCall(s, major, minor, ttl) =>
        if s == sid && Room(cfg, After(cfg, addr, before).providers, sid) then
          Some(Offered(major, minor, if ttl > 0 then ttl
            else cfg.offerTtl, SessionId(cfg.clientId, sid, Wrap32(x.at)), None))
        else h
      case StopOfferCall(s) => if s == sid then None else h
      case ProcessOffers =>
        if h.Some? && OffersOf(Handed(cfg, addr, before, x), sid) != [] then Some(h.value.(last := Some(x.at))) else h
      case _ => h
  }

  /** The time of the last offer pass, or of the start of the run. */
  ghost function LastPass(run: seq<At>): nat {
    if run == [] then 0
    else if run[|run| - 1].e.ProcessOffers? || |run| == 1 then run[|run| - 1].at
    else LastPass(run[..|run| - 1])
  }

  /** Times never go back, and offer passes come within 2^31 ms of each other. */
  ghost predicate Paced(run: seq<At>) {
    run == [] || (Paced(run[..|run| - 1]) && PacedAfter(run[..|run| - 1], run[|run| - 1]))
  }

  ghost predicate PacedAfter(before: seq<At>, x: At) {
    before != [] ==>
      before[|before| - 1].at <= x.at && (x.e.ProcessOffers? ==> x.at < LastPass(before) + TWO_31)
  }

  // ------------------------------------------------------------------------ invariant

  ghost predicate DistinctIds(s: seq<ProviderEntry>) {
    forall i, j :: 0 <= i < j < |s| ==> s[i].serviceId != s[j].serviceId
  }

  /** The entry of a service tells its history. */
  ghost predicate Tells(pe: ProviderEntry, h: Offered, pass: nat) {
    && pe.offered && pe.major == h.major && pe.minor == h.minor && pe.ttl == h.ttl && pe.session == h.session
    && (pe.needsBroadcast <==> h.last.None?)
    && (h.last.Some? ==> LastTold(pe, h.last.value, pass))
  }

  ghost predicate LastTold(pe: ProviderEntry, last: nat, pass: nat) {
    pe.lastOfferMs == Wrap32(last) && last <= pass && (pass == last || pass < last + 500 * pe.ttl)
  }

  ghost predicate Recorded(s: seq<ProviderEntry>, sid: u16, h: Option<Offered>, pass: nat) {
    var i := ProviderIndex(s, sid);
    match h
    case None => i < |s| ==> !s[i].offered
    case Some(x) => i < |s| && Tells(s[i], x, pass)
  }

  ghost predicate Inv(cfg: SdConfig, addr: Address, run: seq<At>, sid: u16) {
    var sd := After(cfg, addr, run);
    && sd.localAddr == addr && DistinctIds(sd.providers)
    && Recorded(sd.providers, sid, History(cfg, addr, run, sid), LastPass(run))
    && (run != [] ==> LastPass(run) <= run[|run| - 1].at)
  }

  // --------------------------------------------------------------- what a pass sends

  lemma {:induction false} OffersConcat(a: seq<Output>, b: seq<Output>, sid: u16)
    ensures OffersOf(a + b, sid) == OffersOf(a, sid) + OffersOf(b, sid)
    decreases |b|
  {
    hide IsOffer;
    if b == [] {
      assert a + b == a;
    } else {
      assert (a + b)[..|a + b| - 1] == a + b[..|b| - 1];
      OffersConcat(a, b[..|b| - 1], sid);
    }
  }

  lemma {:induction false} NoOffers(out: seq<Output>, sid: u16)
    requires forall i :: 0 <= i < |out| ==> !IsOffer(out[i], sid)
    ensures OffersOf(out, sid) == []
    decreases |out|
  {
    hide IsOffer;
    if out != [] {
      NoOffers(out[..|out| - 1], sid);
    }
  }

  lemma OneOffer(o: Output, sid: u16)
    ensures OffersOf([o], sid) == if IsOffer(o, sid) then [o] else []
  {
    hide IsOffer;
    assert [o][..0] == [] && OffersOf([], sid) == [];
  }

  /** A pass offers a service exactly when its entry, if any, is due. */
  lemma {:induction false} PassOffers(s: seq<ProviderEntry>, addr: Address, now: u32, sid: u16)
    requires DistinctIds(s)
    ensures var i := ProviderIndex(s, sid);
      OffersOf(OffersOutput(s, addr, now), sid)
      == if i < |s| && OfferDue(s[i], now) then [Broadcast(OfferOf(s[i], addr))] else []
    decreases |s|
  {
    hide OfferDue;
    if s != [] {
      var n := |s| - 1;
      var last := OfferStep(s[n], addr, now).1;
      PassOffers(s[..n], addr, now, sid);
      OffersConcat(OffersOutput(s[..n], addr, now), last, sid);
      if last == [] {
        NoOffers(last, sid);
      } else {
        assert last == [Broadcast(OfferOf(s[n], addr))];
        OneOffer(last[0], sid);
      }
      ShorterIndex(s, sid);
    }
  }

  lemma ShorterIndex(s: seq<ProviderEntry>, sid: u16)
    requires s != []
    ensures var n := |s| - 1;
      ProviderIndex(s, sid) == if ProviderIndex(s[..n], sid) < n then ProviderIndex(s[..n], sid)
        else if s[n].serviceId == sid then n else |s|
  {
    hide ProviderIndex;
    var n := |s| - 1;
    var j := ProviderIndex(s[..n], sid);
    forall k | 0 <= k < j
      ensures s[k].serviceId != sid
    {
      assert s[..n][k] == s[k];
    }
    FirstIs(s, sid, if j < n then j else if s[n].serviceId == sid then n else |s|);
  }

  lemma FirstIs(s: seq<ProviderEntry>, sid: u16, i: nat)
    requires i <= |s| && (i < |s| ==> s[i].serviceId == sid) && forall k :: 0 <= k < i ==> s[k].serviceId != sid
    ensures ProviderIndex(s, sid) == i
  {
    hide ProviderIndex;
    var j := ProviderIndex(s, sid);
    assert !(j < i);
  }

  /** A find is answered with a service exactly when it is offered and asked for. */
  lemma {:induction false} FindOffers(s: seq<ProviderEntry>, addr: Address, asked: u16, source: Address, sid: u16)
    requires DistinctIds(s)
    ensures var i := ProviderIndex(s, sid);
      OffersOf(FindReplies(s, addr, asked, source), sid)
      == if i < |s| && s[i].offered && (asked == sid || asked == 0xFFFF) then [Unicast(source, OfferOf(s[i], addr))]
        else []
    decreases |s|
  {
    if s != [] {
      var n := |s| - 1;
      var pe := s[n];
      var last := if pe.offered && (asked == 0xFFFF || pe.serviceId == asked)
        then [Unicast(source, OfferOf(pe, addr))] else [];
      FindOffers(s[..n], addr, asked, source, sid);
      OffersConcat(FindReplies(s[..n], addr, asked, source), last, sid);
      if last == [] {
        NoOffers(last, sid);
      } else {
        OneOffer(last[0], sid);
      }
      ShorterIndex(s, sid);
    }
  }

  // ------------------------------------------------------------------ over whole runs

  /** Other operations offer nothing, and leave the entry of the service alone. */
  lemma OtherOperation(cfg: SdConfig, sd: Sd, e: Event, now: u32, sid: u16)
    requires DistinctIds(sd.providers) && !e.ProcessOffers? && !(e.OfferCall? && e.sid == sid)
      && !(e.StopOfferCall? && e.sid == sid)
    ensures var sd' := Step(cfg, sd, e, now).0;
      var i, i' := ProviderIndex(sd.providers, sid), ProviderIndex(sd'.providers, sid);
      && sd'.localAddr == sd.localAddr && DistinctIds(sd'.providers)
      && (i < |sd.providers| ==> i' < |sd'.providers| && sd'.providers[i'] == sd.providers[i])
      && (i == |sd.providers| ==> i' == |sd'.providers|)
  {
    hide SessionId, ProviderIndex, Find, SubscribeTo, UnsubscribeFrom, HandleAck, FlagResubscribe, Reboot,
      OfferRelevant,
      RenewalsStepped, TtlsStepped, FindsStepped;
    var s, s' := sd.providers, Step(cfg, sd, e, now).0.providers;
    var i := ProviderIndex(s, sid);
    FirstIs(s', sid, if i < |s| then i else |s'|);
  }

  lemma CallRecorded(cfg: SdConfig, s: seq<ProviderEntry>, sid: u16, major: u8, minor: u8, ttl: u16, now: u32,
                     pass: nat)
    requires DistinctIds(s) && Offer(cfg, s, sid, major, minor, ttl, now).1
    ensures var s' := Offer(cfg, s, sid, major, minor, ttl, now).0;
      && DistinctIds(s')
      && Recorded(s', sid,
           Some(Offered(major, minor, if ttl > 0 then ttl
             else cfg.offerTtl, SessionId(cfg.clientId, sid, now), None)), pass)
  {
    hide SessionId, ProviderIndex;
    var s' := Offer(cfg, s, sid, major, minor, ttl, now).0;
    FirstIs(s', sid, ProviderIndex(s, sid));
  }

  lemma RefusedCall(cfg: SdConfig, s: seq<ProviderEntry>, sid: u16, major: u8, minor: u8, ttl: u16, now: u32)
    requires !Offer(cfg, s, sid, major, minor, ttl, now).1
    ensures Offer(cfg, s, sid, major, minor, ttl, now).0 == s
  {
  }

  lemma StopRecorded(s: seq<ProviderEntry>, sid: u16, pass: nat)
    requires DistinctIds(s)
    ensures DistinctIds(StopOffer(s, sid)) && Recorded(StopOffer(s, sid), sid, None, pass)
  {
    hide ProviderIndex;
    var i := ProviderIndex(s, sid);
    FirstIs(StopOffer(s, sid), sid, i);
  }

  /** Whether a service with that history is offered in a pass at time `now`: at the first one
      after the call, and then half a lease after the last. */
  ghost predicate OfferedAt(h: Offered, now: nat) {
    h.last.None? || now >= h.last.value + 500 * h.ttl
  }

  lemma DueIsTrue(pe: ProviderEntry, h: Offered, pass: nat, now: nat)
    requires Tells(pe, h, pass) && pass <= now < pass + TWO_31
    ensures OfferDue(pe, Wrap32(now)) <==> OfferedAt(h, now)
  {
    hide Wrap32, TimeAfterOrEq;
    if h.last.Some? {
      WrapSum(h.last.value, 500 * pe.ttl);
      ClockComparison(now, h.last.value + 500 * pe.ttl);
    }
  }

  lemma PassRecorded(s: seq<ProviderEntry>, addr: Address, sid: u16, h: Option<Offered>, pass: nat, now: nat)
    requires DistinctIds(s) && Recorded(s, sid, h, pass) && pass <= now < pass + TWO_31
    ensures var s' := OffersStepped(s, addr, Wrap32(now));
      var sent := OffersOf(OffersOutput(s, addr, Wrap32(now)), sid);
      && DistinctIds(s')
      && Recorded(s', sid, if h.Some? && sent != [] then Some(h.value.(last := Some(now))) else h, now)
      && sent == (if h.Some? && OfferedAt(h.value, now)
          then [Broadcast(OfferService(sid, h.value.major, h.value.minor, h.value.ttl, h.value.session, addr))] else [])
  {
    hide ProviderIndex, OffersOutput, OffersOf, OfferDue, Wrap32;
    var s' := OffersStepped(s, addr, Wrap32(now));
    var i := ProviderIndex(s, sid);
    PassOffers(s, addr, Wrap32(now), sid);
    assert forall k :: 0 <= k < |s| ==> s'[k].serviceId == s[k].serviceId;
    FirstIs(s', sid, i);
    match h
    case Some(x) => DueIsTrue(s[i], x, pass, now);
    case None => NotDue(s, i, Wrap32(now));
  }

  lemma NotDue(s: seq<ProviderEntry>, i: nat, now: u32)
    ensures i < |s| && !s[i].offered ==> !OfferDue(s[i], now)
  {
  }

  lemma {:induction false} RunInv(cfg: SdConfig, addr: Address, run: seq<At>, sid: u16)
    requires Paced(run)
    ensures Inv(cfg, addr, run, sid)
    decreases |run|
  {
    hide Step, Recorded, OffersOf;
    if run == [] {
      NothingRecorded(sid, 0);
    } else {
      RunInv(cfg, addr, run[..|run| - 1], sid);
      StepInv(cfg, addr, run[..|run| - 1], run[|run| - 1], sid);
    }
  }

  lemma NothingRecorded(sid: u16, pass: nat)
    ensures Recorded([], sid, None, pass)
  {
  }

  lemma StepInv(cfg: SdConfig, addr: Address, before: seq<At>, x: At, sid: u16)
    requires Inv(cfg, addr, before, sid) && PacedAfter(before, x)
    ensures Inv(cfg, addr, before + [x], sid)
  {
    hide OffersOf, ProviderIndex, SessionId, Offer, StopOffer, OffersOutput, Recorded, Wrap32;
    var run := before + [x];
    assert run[..|run| - 1] == before;
    var s := After(cfg, addr, before).providers;
    var h := History(cfg, addr, before, sid);
    var pass := if before == [] then x.at else LastPass(before);
    NothingRecorded(sid, pass);
    if x.e.ProcessOffers? {
      PassRecorded(s, addr, sid, h, pass, x.at);
    } else if x.e.OfferCall? && x.e.sid == sid {
      Accepted(cfg, s, sid, x.e.major, x.e.minor, x.e.ttl, Wrap32(x.at));
      if Room(cfg, s, sid) {
        CallRecorded(cfg, s, sid, x.e.major, x.e.minor, x.e.ttl, Wrap32(x.at), pass);
      } else {
        RefusedCall(cfg, s, sid, x.e.major, x.e.minor, x.e.ttl, Wrap32(x.at));
      }
    } else if x.e.StopOfferCall? && x.e.sid == sid {
      StopRecorded(s, sid, pass);
    } else {
      OtherOperation(cfg, After(cfg, addr, before), x.e, Wrap32(x.at), sid);
      SameRecorded(s, After(cfg, addr, run).providers, sid, h, pass);
    }
  }

  lemma SameRecorded(s: seq<ProviderEntry>, s': seq<ProviderEntry>, sid: u16, h: Option<Offered>, pass: nat)
    requires Recorded(s, sid, h, pass)
    requires var i, i' := ProviderIndex(s, sid), ProviderIndex(s', sid);
      (i < |s| ==> i' < |s'| && s'[i'] == s[i]) && (i == |s| ==> i' == |s'|)
    ensures Recorded(s', sid, h, pass)
  {
    hide ProviderIndex, Tells;
  }

  /** The offer schedule, on every paced run from empty tables and across clock wraps: a pass
      broadcasts a service, with what its `offer` call said, exactly when it is offered and this
      is the first pass since the call or half its lease after the last broadcast. */
  lemma OfferSchedule(cfg: SdConfig, addr: Address, run: seq<At>, now: nat, sid: u16)
    requires Paced(run + [At(ProcessOffers, now)])
    ensures var h := History(cfg, addr, run, sid);
      OffersOf(Handed(cfg, addr, run, At(ProcessOffers, now)), sid)
      == (if h.Some? && (h.value.last.None? || now >= h.value.last.value + 500 * h.value.ttl)
          then [Broadcast(OfferService(sid, h.value.major, h.value.minor, h.value.ttl, h.value.session, addr))] else [])
  {
    hide OffersOf, ProviderIndex, OffersOutput, Recorded, Wrap32;
    var all := run + [At(ProcessOffers, now)];
    assert all[..|all| - 1] == run;
    RunInv(cfg, addr, run, sid);
    var pass := if run == [] then now else LastPass(run);
    NothingRecorded(sid, pass);
    PassRecorded(After(cfg, addr, run).providers, addr, sid, History(cfg, addr, run, sid), pass, now);
  }

  /** A received find is answered with a service, once and to its sender, exactly when it is
      offered and the find names it or all services. */
  lemma FindAnswered(cfg: SdConfig, addr: Address, run: seq<At>, asked: u16, source: Address, at: nat, sid: u16)
    requires Paced(run)
    ensures var h := History(cfg, addr, run, sid);
      OffersOf(Handed(cfg, addr, run, At(RxFind(asked, source), at)), sid)
      == (if h.Some? && (asked == sid || asked == 0xFFFF)
          then [Unicast(source, OfferService(sid, h.value.major, h.value.minor, h.value.ttl, h.value.session, addr))]
            else [])
  {
    hide OffersOf, ProviderIndex, FindReplies;
    RunInv(cfg, addr, run, sid);
    FindOffers(After(cfg, addr, run).providers, addr, asked, source, sid);
  }

  ghost predicate NoOfferCall(run: seq<At>, sid: u16) {
    forall i :: 0 <= i < |run| ==> !(run[i].e.OfferCall? && run[i].e.sid == sid)
  }

  lemma {:induction false} StaysStopped(cfg: SdConfig, addr: Address, before: seq<At>, after: seq<At>, sid: u16)
    requires History(cfg, addr, before, sid) == None && NoOfferCall(after, sid)
    ensures History(cfg, addr, before + after, sid) == None
    decreases |after|
  {
    hide OffersOf, Handed;
    if after == [] {
      assert before + after == before;
    } else {
      var n := |after| - 1;
      assert (before + after)[..|before + after| - 1] == before + after[..n];
      StaysStopped(cfg, addr, before, after[..n], sid);
    }
  }

  /** Only passes and answers to a find offer anything. */
  lemma OthersOfferNothing(cfg: SdConfig, sd: Sd, e: Event, now: u32, sid: u16)
    requires !e.ProcessOffers? && !e.RxFind?
    ensures OffersOf(Step(cfg, sd, e, now).1, sid) == []
  {
    hide SessionId, FlagResubscribe, OffersOf, Reboot, OfferRelevant;
    var out := Step(cfg, sd, e, now).1;
    if e.ProcessRenewals? {
      RenewalsOfferNothing(cfg, sd.consumers, sd.trackers, now, sid);
    } else if e.ProcessTtls? {
      TtlsOfferNothing(sd.consumers, now, sid);
    } else if e.ProcessFinds? {
      FindsOfferNothing(cfg, sd.consumers, now, sid);
    } else {
      NoOffers(out, sid);
    }
  }

  lemma {:induction false} RenewalsOfferNothing(cfg: SdConfig, cs: seq<ConsumerEntry>, s: seq<SubTracker>, now: u32,
                                                sid: u16)
    ensures OffersOf(RenewalsOutput(cfg, cs, s, now), sid) == []
    decreases |s|
  {
    hide TimeAfterOrEq, ProviderOf, OffersOf;
    if s == [] {
      NoOffers([], sid);
    } else {
      var n := |s| - 1;
      RenewalsOfferNothing(cfg, cs, s[..n], now, sid);
      OffersConcat(RenewalsOutput(cfg, cs, s[..n], now), RenewStep(cfg, cs, s[n], now).1, sid);
      NoOffers(RenewStep(cfg, cs, s[n], now).1, sid);
    }
  }

  lemma {:induction false} TtlsOfferNothing(s: seq<ConsumerEntry>, now: u32, sid: u16)
    ensures OffersOf(TtlsOutput(s, now), sid) == []
    decreases |s|
  {
    hide TtlExpired, OffersOf;
    if s == [] {
      NoOffers([], sid);
    } else {
      var n := |s| - 1;
      TtlsOfferNothing(s[..n], now, sid);
      OffersConcat(TtlsOutput(s[..n], now), TtlStep(s[n], now).1, sid);
      NoOffers(TtlStep(s[n], now).1, sid);
    }
  }

  lemma {:induction false} FindsOfferNothing(cfg: SdConfig, s: seq<ConsumerEntry>, now: u32, sid: u16)
    ensures OffersOf(FindsOutput(cfg, s, now), sid) == []
    decreases |s|
  {
    hide TimeAfterOrEq, NextRetry, OffersOf;
    if s == [] {
      NoOffers([], sid);
    } else {
      var n := |s| - 1;
      FindsOfferNothing(cfg, s[..n], now, sid);
      OffersConcat(FindsOutput(cfg, s[..n], now), FindStep(cfg, s[n], now).1, sid);
      NoOffers(FindStep(cfg, s[n], now).1, sid);
    }
  }

  /** After `stop_offer`, no operation of any run without a new `offer` broadcasts the service
      or answers a find with it. */
  lemma StopIsFinal(cfg: SdConfig, addr: Address, before: seq<At>, at: nat, after: seq<At>, x: At, sid: u16)
    requires NoOfferCall(after, sid) && Paced(before + [At(StopOfferCall(sid), at)] + after + [x])
    ensures OffersOf(Handed(cfg, addr, before + [At(StopOfferCall(sid), at)] + after, x), sid) == []
  {
    hide OffersOf, Step, Offer;
    var stopped := before + [At(StopOfferCall(sid), at)];
    var run := stopped + after;
    assert stopped[..|stopped| - 1] == before && (run + [x])[..|run + [x]| - 1] == run;
    StaysStopped(cfg, addr, stopped, after, sid);
    if x.e.ProcessOffers? {
      OfferSchedule(cfg, addr, run, x.at, sid);
    } else if x.e.RxFind? {
      FindAnswered(cfg, addr, run, x.e.sid, x.e.source, x.at, sid);
    } else {
      OthersOfferNothing(cfg, After(cfg, addr, run), x.e, Wrap32(x.at), sid);
    }
  }
}
