/** A device's consumer side told in unbounded time: when a service counts as found, and when
a subscription is sent, renewed, retried and given up. */
module TrueTime {
  import opened Words
  import opened SdMessages
  import opened DiscoverySpec

  /** A service is found at an address until its lease is over. */
  datatype Found = Found(addr: Address, session: u16, due: nat)

  /** A service the application has asked for. */
  datatype Service = Service(major: u8, found: Option<Found>)

  /** A subscription: `last` is the time of the last send, or of what started it over. */
  datatype Sub = Sub(ttl: u16, wanted: bool, active: bool, toSend: bool, toLeave: bool, granted: u16, last: nat,
                     retries: nat)

  /** An offer that counts: of the version asked for, and not withdrawn. */
  predicate Counts(s: Option<Service>, major: u8, ttl: u16) {
    s.Some? && s.value.major == major && ttl > 0
  }

  predicate IsFound(s: Option<Service>) {
    s.Some? && s.value.found.Some?
  }

  /** The lease of the service is over. */
  predicate Over(s: Option<Service>, at: nat) {
    IsFound(s) && at > s.value.found.value.due
  }

  /** What an operation at time `at` does to service `sid`; `room` says whether the table has a
      free entry. */
  function NextService(s: Option<Service>, e: Event, at: nat, sid: u16, room: bool): Option<Service> {
    match e
    case FindCall(x, major) => if x == sid && (s.Some? || room) then Some(Service(major, None)) else s
    case RxOffer(x, major, ttl, session, provider) =>
      if x == sid && Counts(s, major, ttl) then Some(s.value.(found := Some(Found(provider, session, at + 1000 * ttl))))
      else s
    case ProcessTtls => if Over(s, at) then Some(s.value.(found := None)) else s
    case _ => s
  }

  /** An offer that counts says something new: the service was not found, or has moved, or
      has another session. */
  predicate News(s: Option<Service>, session: u16, provider: Address) {
    !IsFound(s) || s.value.found.value.addr != provider || s.value.found.value.session != session
  }

  /** The interval after which a subscription is sent again: half the granted lease, or the
      whole default one while nothing is granted. */
  function Interval(cfg: SdConfig, t: Sub): nat {
    if t.granted > 0 then 500 * t.granted else 1000 * cfg.subscriptionTtl
  }

  /** A renewal pass sends the subscription. */
  predicate Sends(cfg: SdConfig, s: Option<Service>, t: Sub, at: nat) {
    && IsFound(s) && t.active && !t.toLeave
    && (t.toSend || (at >= t.last + Interval(cfg, t) && (t.granted > 0 || t.retries < 2)))
  }

  /** A renewal pass takes the subscription back. */
  predicate Leaves(s: Option<Service>, t: Sub) {
    IsFound(s) && t.active && t.toLeave
  }

  /** A renewal pass gives the subscription up: it was sent three times without an answer. */
  predicate Abandons(cfg: SdConfig, s: Option<Service>, t: Sub, at: nat) {
    && IsFound(s) && t.active && !t.toLeave && !t.toSend
    && t.granted == 0 && t.retries >= 2 && at >= t.last + Interval(cfg, t)
  }

  /** What an operation does to the application's subscription to event `eid` of `sid`. */
  function NextSub(cfg: SdConfig, s: Option<Service>, t: Option<Sub>, e: Event, at: nat, sid: u16, eid: u16,
                   room: bool): Option<Sub> {
    if e.SubscribeCall? && e.sid == sid && e.eid == eid then
      if t.Some? then Some(Sub(e.ttl, true, true, true, t.value.toLeave, 0, at, t.value.retries))
      else if room then Some(Sub(e.ttl, true, true, true, false, 0, at, 0))
      else None
    else if t.None? then None
    else Some(Moved(cfg, s, t.value, e, at, sid, eid))
  }

  function Moved(cfg: SdConfig, s: Option<Service>, t: Sub, e: Event, at: nat, sid: u16, eid: u16): Sub {
    match e
    case UnsubscribeCall(x, y) => if x == sid && y == eid then t.(wanted := false, toLeave := true) else t
    case RxOffer(x, major, ttl, session, provider) =>
      if x == sid && Counts(s, major, ttl) && News(s, session, provider) && t.wanted then
        t.(active := true, toSend := true, granted := 0, last := at, retries := 0)
      else t
    case RxAck(x, y, result, ttl) =>
      if x != sid || y != eid || !t.active then t
      else if result == 0 then t.(granted := ttl)
      else t.(active := false)
    case ProcessRenewals =>
      if Leaves(s, t) then t.(active := false, toLeave := false)
      else if Abandons(cfg, s, t, at) then t.(active := false)
      else if !Sends(cfg, s, t, at) then t
      else t.(toSend := false, last := at, retries := if t.toSend || t.granted > 0 then t.retries else t.retries + 1)
    case _ => t
  }
}

/** The tables of the program, with their 32-bit clock, do what is told in unbounded time. */
module ConsumerRuns {
  import opened Words
  import opened SdMessages
  import opened DiscoverySpec
  import opened DiscoveryLog
  import opened Subscriptions
  import opened FindBackoff
  import opened TrueTime
  import opened OfferRuns

  // ---------------------------------------------------------------- reference histories

  ghost function ServiceAt(cfg: SdConfig, addr: Address, run: seq<At>, sid: u16): Option<Service> {
    if run == [] then None
    else
      var before, x := run[..|run| - 1], run[|run| - 1];
      NextService(ServiceAt(cfg, addr, before, sid), x.e, x.at, sid,
                  |After(cfg, addr, before).consumers| < cfg.maxKnownServices)
  }

  ghost function SubAt(cfg: SdConfig, addr: Address, run: seq<At>, sid: u16, eid: u16): Option<Sub> {
    if run == [] then None
    else
      var before, x := run[..|run| - 1], run[|run| - 1];
      NextSub(cfg, ServiceAt(cfg, addr, before, sid), SubAt(cfg, addr, before, sid, eid), x.e, x.at, sid, eid,
              |After(cfg, addr, before).trackers| < cfg.maxSubTrackers)
  }

  // ------------------------------------------------------------------------ paced runs

  /** The time of the last pass of that kind, or of the start of the run. */
  ghost function LastOf(run: seq<At>, pass: Event): nat {
    if run == [] then 0
    else if run[|run| - 1].e == pass || |run| == 1 then run[|run| - 1].at
    else LastOf(run[..|run| - 1], pass)
  }

  /** Times never go back, and the passes over leases and renewals come within 2^30 ms. */
  ghost predicate Regular(run: seq<At>) {
    run == [] || (Regular(run[..|run| - 1]) && RegularAfter(run[..|run| - 1], run[|run| - 1]))
  }

  ghost predicate RegularAfter(before: seq<At>, x: At) {
    before != [] ==>
      && before[|before| - 1].at <= x.at
      && (x.e.ProcessTtls? ==> x.at < LastOf(before, ProcessTtls) + 0x4000_0000)
      && (x.e.ProcessRenewals? ==> x.at < LastOf(before, ProcessRenewals) + 0x4000_0000)
  }

  // -------------------------------------------------------------------------- relation

  ghost predicate ServiceIs(ce: Option<ConsumerEntry>, s: Option<Service>) {
    match ce
    case None => s.None?
    case Some(c) => s.Some? && EntryIs(c, s.value)
  }

  ghost predicate EntryIs(c: ConsumerEntry, s: Service) {
    && c.expectedMajor == s.major && (c.state == FOUND <==> s.found.Some?)
    && (s.found.Some? ==> FoundIs(c, s.found.value))
  }

  ghost predicate FoundIs(c: ConsumerEntry, f: Found) {
    c.addr == f.addr && c.session == f.session && c.sessionValid && c.ttlExpiryMs == Wrap32(f.due)
  }

  ghost predicate SubIs(t: Option<SubTracker>, u: Option<Sub>) {
    match t
    case None => u.None?
    case Some(x) => u.Some? && TrackerIs(x, u.value)
  }

  ghost predicate TrackerIs(x: SubTracker, u: Sub) {
    && x.requestedTtl == u.ttl && x.appRegistered == u.wanted && x.active == u.active && x.needsSend == u.toSend
    && x.needsUnsubscribe == u.toLeave && x.grantedTtl == u.granted && x.lastSentMs == Wrap32(u.last)
    && x.ackRetryCount == u.retries
  }

  /** How far the lease of a service lies from the last pass and from now. */
  ghost predicate ServiceTimely(s: Option<Service>, now: nat, pass: nat) {
    pass <= now && (IsFound(s) ==> pass <= s.value.found.value.due <= now + 65_535_000)
  }

  ghost predicate SubTimely(s: Option<Service>, u: Option<Sub>, now: nat, pass: nat) {
    pass <= now && (u.Some? ==> u.value.last <= now && Waits(s, u.value, pass))
  }

  ghost predicate Waits(s: Option<Service>, u: Sub, pass: nat) {
    && (u.active && !u.wanted ==> u.toLeave)
    && (IsFound(s) && u.active && !u.toSend && !u.toLeave ==> pass <= u.last + 65_535_000)
  }

  ghost predicate Inv(cfg: SdConfig, addr: Address, run: seq<At>, sid: u16, eid: u16) {
    var sd := After(cfg, addr, run);
    var s, u := ServiceAt(cfg, addr, run, sid), SubAt(cfg, addr, run, sid, eid);
    && Distinct(sd) && ServiceIs(ConsumerOf(sd, sid), s) && SubIs(TrackerOf(sd, sid, eid), u)
    && (run != [] ==>
          && ServiceTimely(s, run[|run| - 1].at, LastOf(run, ProcessTtls))
          && SubTimely(s, u, run[|run| - 1].at, LastOf(run, ProcessRenewals)))
  }

  // ---------------------------------------------------------------- the service's entry

  /** An operation other than `find` on the entry of a service. */
  function EntryAfter(cfg: SdConfig, ce: ConsumerEntry, e: Event, now: u32): ConsumerEntry {
    match e
    case ProcessTtls => TtlStep(ce, now).0
    case ProcessFinds => FindStep(cfg, ce, now).0
    case RxOffer(sid, major, ttl, session, provider) =>
      if sid == ce.serviceId && major == ce.expectedMajor && ttl != 0 then
        ce.(addr := provider, ttlExpiryMs := Wrap32(now + 1000 * ttl), session := session, sessionValid := true,
            state := FOUND)
      else ce
    case _ => ce
  }

  lemma EntryAfterIs(cfg: SdConfig, sd: Sd, e: Event, now: u32, sid: u16)
    requires Distinct(sd) && !e.FindCall?
    ensures ConsumerOf(Step(cfg, sd, e, now).0, sid) ==
      match ConsumerOf(sd, sid) case None => None case Some(ce) => Some(EntryAfter(cfg, ce, e, now))
  {
    hide SessionId, FindStep, TtlStep, FlagResubscribe, Reboot, ConsumerIndex;
    ConsumerKeys(cfg, sd, e, now);
    SameIndex(sd.consumers, Step(cfg, sd, e, now).0.consumers, sid);
  }

  lemma FindCallIs(cfg: SdConfig, sd: Sd, x: u16, major: u8, now: u32, sid: u16)
    requires Distinct(sd)
    ensures var ce, ce' := ConsumerOf(sd, sid), ConsumerOf(Step(cfg, sd, FindCall(x, major), now).0, sid);
      if x != sid || (ce.None? && |sd.consumers| >= cfg.maxKnownServices) then ce' == ce
      else ce'.Some? && ce'.value.expectedMajor == major && ce'.value.state != FOUND
  {
    if x != sid {
      OtherFind(cfg, sd, FindCall(x, major), now, sid);
    } else {
      StepDistinct(cfg, sd, FindCall(x, major), now);
      var s' := Step(cfg, sd, FindCall(x, major), now).0.consumers;
      var i := ConsumerIndex(sd.consumers, sid);
      if i < |s'| {
        ConsumerIndexIs(s', i);
      }
    }
  }

  lemma EntryRefines(cfg: SdConfig, ce: ConsumerEntry, s: Service, e: Event, at: nat, sid: u16, room: bool, now: nat,
                     pass: nat)
    requires ce.serviceId == sid && EntryIs(ce, s) && !e.FindCall? && ServiceTimely(Some(s), now, pass) && now <= at
    requires e.ProcessTtls? ==> at < pass + 0x4000_0000
    ensures var s' := NextService(Some(s), e, at, sid, room);
      && ServiceIs(Some(EntryAfter(cfg, ce, e, Wrap32(at))), s')
      && ServiceTimely(s', at, if e.ProcessTtls? then at else pass)
  {
    hide Wrap32, TimeAfter, TimeAfterOrEq, NextRetry;
    match e {
      case ProcessTtls =>
        if s.found.Some? {
          ClockComparison(at, s.found.value.due);
        }
      case RxOffer(_, _, ttl, _, _) => WrapSum(at, 1000 * ttl);
      case _ =>
    }
  }

  lemma ServiceStep(cfg: SdConfig, sd: Sd, s: Option<Service>, e: Event, at: nat, sid: u16, now: nat, pass: nat)
    requires Distinct(sd) && ServiceIs(ConsumerOf(sd, sid), s) && ServiceTimely(s, now, pass) && now <= at
    requires e.ProcessTtls? ==> at < pass + 0x4000_0000
    ensures var s' := NextService(s, e, at, sid, |sd.consumers| < cfg.maxKnownServices);
      && ServiceIs(ConsumerOf(Step(cfg, sd, e, Wrap32(at)).0, sid), s')
      && ServiceTimely(s', at, if e.ProcessTtls? then at else pass)
  {
    hide Step, Distinct, EntryIs, Wrap32, EntryAfter;
    if e.FindCall? {
      FindCallIs(cfg, sd, e.sid, e.major, Wrap32(at), sid);
      NotFoundIs(ConsumerOf(Step(cfg, sd, e, Wrap32(at)).0, sid), e.major);
    } else {
      EntryAfterIs(cfg, sd, e, Wrap32(at), sid);
      if s.Some? {
        HasKey(sd, sid);
        EntryRefines(cfg, ConsumerOf(sd, sid).value, s.value, e, at, sid, |sd.consumers| < cfg.maxKnownServices, now,
                     pass);
      }
    }
  }

  lemma NotFoundIs(ce: Option<ConsumerEntry>, major: u8)
    ensures ce.Some? && ce.value.expectedMajor == major && ce.value.state != FOUND ==>
      EntryIs(ce.value, Service(major, None))
  {
  }

  lemma HasKey(sd: Sd, sid: u16)
    ensures ConsumerOf(sd, sid).Some? ==> ConsumerOf(sd, sid).value.serviceId == sid
  {
  }

  // ------------------------------------------------------------- the subscription's entry

  lemma FlagsIs(sd: Sd, s: Option<Service>, e: Event, sid: u16)
    requires ServiceIs(ConsumerOf(sd, sid), s)
    ensures Flags(sd, e, sid)
       <==> e.RxOffer? && e.sid == sid && Counts(s, e.major, e.ttl) && News(s, e.session, e.provider)
  {
  }

  lemma ProviderIs(sd: Sd, s: Option<Service>, sid: u16)
    requires ServiceIs(ConsumerOf(sd, sid), s)
    ensures ProviderOf(sd.consumers, sid) == if IsFound(s) then Some(s.value.found.value.addr) else None
  {
  }

  /** The wrapped comparisons of a renewal pass. */
  lemma DueIs(cfg: SdConfig, x: SubTracker, u: Sub, at: nat, pass: nat)
    requires TrackerIs(x, u) && u.last <= at < pass + 0x4000_0000 && pass <= u.last + 65_535_000
    ensures TimeAfterOrEq(Wrap32(at), Wrap32(x.lastSentMs + 500 * x.grantedTtl)) <==> at >= u.last + 500 * u.granted
    ensures TimeAfterOrEq(Wrap32(at), Wrap32(x.lastSentMs + 1000 * cfg.subscriptionTtl))
       <==> at >= u.last + 1000 * cfg.subscriptionTtl
  {
    hide Wrap32, TimeAfterOrEq;
    WrapSum(u.last, 500 * u.granted);
    WrapSum(u.last, 1000 * cfg.subscriptionTtl);
    ClockComparison(at, u.last + 500 * u.granted);
    ClockComparison(at, u.last + 1000 * cfg.subscriptionTtl);
  }

  /** One renewal pass over one subscription: what it becomes and what it sends. */
  lemma RenewIs(cfg: SdConfig, sd: Sd, s: Option<Service>, x: SubTracker, u: Sub, at: nat, now: nat, pass: nat)
    requires ServiceIs(ConsumerOf(sd, x.serviceId), s) && TrackerIs(x, u) && SubTimely(s, Some(u), now, pass)
    requires now <= at < pass + 0x4000_0000
    ensures var (x', out) := RenewStep(cfg, sd.consumers, x, Wrap32(at));
      var u' := Moved(cfg, s, u, ProcessRenewals, at, x.serviceId, x.eventId);
      && TrackerIs(x', u') && SubTimely(s, Some(u'), at, at)
      && out == (if Leaves(s, u) then [Unicast(s.value.found.value.addr, Unsubscribe(x.serviceId, x.eventId))]
                 else if Sends(cfg, s, u, at) then
                   [Unicast(s.value.found.value.addr, SubscribeEvent(x.serviceId, x.eventId, u.ttl))]
                 else [])
  {
    hide Wrap32, TimeAfterOrEq, ServiceIs, ConsumerOf;
    ProviderIs(sd, s, x.serviceId);
    if IsFound(s) && u.active && !u.toSend && !u.toLeave {
      DueIs(cfg, x, u, at, pass);
    }
  }

  lemma TrackerRefines(cfg: SdConfig, sd: Sd, s: Option<Service>, x: SubTracker, u: Sub, e: Event, at: nat, sid: u16,
                       eid: u16, now: nat, pass: nat)
    requires IsTracker(x, sid, eid) && ServiceIs(ConsumerOf(sd, sid), s) && TrackerIs(x, u)
    requires SubTimely(s, Some(u), now, pass) && now <= at && !e.ProcessRenewals? && !IsSubscribeCall(e, sid, eid)
    ensures var u' := Moved(cfg, s, u, e, at, sid, eid);
      && TrackerIs(TrackerStep(cfg, sd, x, e, Wrap32(at)), u')
      && SubTimely(NextService(s, e, at, sid, |sd.consumers| < cfg.maxKnownServices), Some(u'), at, pass)
  {
    hide Wrap32, ServiceIs, ConsumerOf, Flags;
    FlagsIs(sd, s, e, sid);
  }

  lemma SubStep(cfg: SdConfig, sd: Sd, s: Option<Service>, u: Option<Sub>, e: Event, at: nat, sid: u16, eid: u16,
                now: nat, pass: nat)
    requires Distinct(sd) && ServiceIs(ConsumerOf(sd, sid), s) && SubIs(TrackerOf(sd, sid, eid), u)
    requires SubTimely(s, u, now, pass) && now <= at
    requires e.ProcessRenewals? ==> at < pass + 0x4000_0000
    ensures var u' := NextSub(cfg, s, u, e, at, sid, eid, |sd.trackers| < cfg.maxSubTrackers);
      && SubIs(TrackerOf(Step(cfg, sd, e, Wrap32(at)).0, sid, eid), u')
      && SubTimely(NextService(s, e, at, sid, |sd.consumers| < cfg.maxKnownServices), u', at,
                   if e.ProcessRenewals? then at else pass)
  {
    hide Step, Distinct, Wrap32, ServiceIs, TrackerOf, TrackerStep, TrackerIs, Moved, RenewStep, ConsumerOf;
    if IsSubscribeCall(e, sid, eid) {
      SubscribeCallIs(cfg, sd, u, sid, eid, e.ttl, at);
    } else {
      TrackerStepIs(cfg, sd, e, Wrap32(at), sid, eid);
      TrackerHasKey(sd, sid, eid);
      if u.Some? {
        var x := TrackerOf(sd, sid, eid).value;
        if e.ProcessRenewals? {
          RenewIs(cfg, sd, s, x, u.value, at, now, pass);
          StepOfRenewal(cfg, sd, x, Wrap32(at));
        } else {
          TrackerRefines(cfg, sd, s, x, u.value, e, at, sid, eid, now, pass);
        }
      }
    }
  }

  lemma StepOfRenewal(cfg: SdConfig, sd: Sd, x: SubTracker, now: u32)
    ensures TrackerStep(cfg, sd, x, ProcessRenewals, now) == RenewStep(cfg, sd.consumers, x, now).0
  {
  }

  lemma SubscribeCallIs(cfg: SdConfig, sd: Sd, u: Option<Sub>, sid: u16, eid: u16, ttl: u16, at: nat)
    requires Distinct(sd) && SubIs(TrackerOf(sd, sid, eid), u)
    ensures SubIs(TrackerOf(Step(cfg, sd, SubscribeCall(sid, eid, ttl), Wrap32(at)).0, sid, eid),
                  NextSub(cfg, None, u, SubscribeCall(sid, eid, ttl), at, sid, eid, |sd.trackers| < cfg.maxSubTrackers))
  {
    hide Wrap32;
    var e := SubscribeCall(sid, eid, ttl);
    StepDistinct(cfg, sd, e, Wrap32(at));
    var s' := Step(cfg, sd, e, Wrap32(at)).0.trackers;
    var i := TrackerIndex(sd.trackers, sid, eid);
    if i < |s'| {
      TrackerIndexIs(s', sid, eid, i);
    }
  }

  // ------------------------------------------------------------------------ whole runs

  lemma {:induction false} RunInv(cfg: SdConfig, addr: Address, run: seq<At>, sid: u16, eid: u16)
    requires Regular(run)
    ensures Inv(cfg, addr, run, sid, eid)
    decreases |run|
  {
    hide Inv;
    if run == [] {
      EmptyInv(cfg, addr, sid, eid);
    } else {
      RunInv(cfg, addr, run[..|run| - 1], sid, eid);
      assert run[..|run| - 1] + [run[|run| - 1]] == run;
      StepInv(cfg, addr, run[..|run| - 1], run[|run| - 1], sid, eid);
    }
  }

  lemma EmptyInv(cfg: SdConfig, addr: Address, sid: u16, eid: u16)
    ensures Inv(cfg, addr, [], sid, eid)
  {
  }

  lemma StepInv(cfg: SdConfig, addr: Address, before: seq<At>, x: At, sid: u16, eid: u16)
    requires Inv(cfg, addr, before, sid, eid) && RegularAfter(before, x)
    ensures Inv(cfg, addr, before + [x], sid, eid)
  {
    hide Step, Distinct, ServiceIs, SubIs, ConsumerOf, TrackerOf, Wrap32, NextService, NextSub;
    var run := before + [x];
    assert run[..|run| - 1] == before;
    var sd := After(cfg, addr, before);
    var s, u := ServiceAt(cfg, addr, before, sid), SubAt(cfg, addr, before, sid, eid);
    var now := if before == [] then x.at else before[|before| - 1].at;
    var p := if before == [] then x.at else LastOf(before, ProcessTtls);
    var q := if before == [] then x.at else LastOf(before, ProcessRenewals);
    DistinctParts(sd);
    StepDistinct(cfg, sd, x.e, Wrap32(x.at));
    DistinctWhole(Step(cfg, sd, x.e, Wrap32(x.at)).0);
    ServiceStep(cfg, sd, s, x.e, x.at, sid, now, p);
    SubStep(cfg, sd, s, u, x.e, x.at, sid, eid, now, q);
  }

  /** A service counts as found, at the address of its last offer that counts, exactly until
      the first lease pass after its end: for every run from empty tables, across clock wraps. */
  lemma FoundExactly(cfg: SdConfig, addr: Address, run: seq<At>, sid: u16)
    requires Regular(run)
    ensures var s := ServiceAt(cfg, addr, run, sid);
      ProviderOf(After(cfg, addr, run).consumers, sid) == if IsFound(s) then Some(s.value.found.value.addr) else None
  {
    RunInv(cfg, addr, run, sid, 0);
    ProviderIs(After(cfg, addr, run), ServiceAt(cfg, addr, run, sid), sid);
  }

  /** What the application hears of a service: a lease pass says lost exactly when the lease is
      over, and an offer that counts says found when the service was not found or has moved,
      lost and found again when its session is another, and nothing otherwise. */
  lemma ToldExactly(cfg: SdConfig, addr: Address, run: seq<At>, x: At, sid: u16)
    requires Regular(run + [x]) && (x.e.ProcessTtls? || x.e.RxOffer?)
    ensures var s := ServiceAt(cfg, addr, run, sid);
      Select(Handed(cfg, addr, run, x), Callbacks(sid))
      == (if x.e.ProcessTtls? then if Over(s, x.at) then [LostCallback(sid)] else []
          else if x.e.sid != sid || !Counts(s, x.e.major, x.e.ttl) || !News(s, x.e.session, x.e.provider) then []
          else if IsFound(s) && s.value.found.value.session != x.e.session then
            [LostCallback(sid), FoundCallback(sid, x.e.provider)]
          else [FoundCallback(sid, x.e.provider)])
  {
    hide Step, Select, SubTimely;
    assert (run + [x])[..|run + [x]| - 1] == run;
    RunInv(cfg, addr, run, sid, 0);
    var sd, s := After(cfg, addr, run), ServiceAt(cfg, addr, run, sid);
    if x.e.ProcessTtls? {
      var now := if run == [] then x.at else run[|run| - 1].at;
      var pass := if run == [] then x.at else LastOf(run, ProcessTtls);
      ExpiryTold(cfg, sd, s, x.at, sid, now, pass);
    } else {
      OfferTold(cfg, sd, s, x.e, Wrap32(x.at), sid);
    }
  }

  lemma ExpiryTold(cfg: SdConfig, sd: Sd, s: Option<Service>, at: nat, sid: u16, now: nat, pass: nat)
    requires Distinct(sd) && ServiceIs(ConsumerOf(sd, sid), s) && ServiceTimely(s, now, pass)
    requires now <= at < pass + 0x4000_0000
    ensures Select(Step(cfg, sd, ProcessTtls, Wrap32(at)).1, Callbacks(sid))
         == if Over(s, at) then [LostCallback(sid)] else []
  {
    hide Select, TimeAfter, Wrap32;
    var cs := sd.consumers;
    var i := ConsumerIndex(cs, sid);
    forall k | 0 <= k < |cs| && k != i
      ensures Select(TtlStep(cs[k], Wrap32(at)).1, Callbacks(sid)) == []
    {
      assert cs[k].serviceId != sid;
      SelectNone(TtlStep(cs[k], Wrap32(at)).1, Callbacks(sid));
    }
    SelectTtls(cs, Wrap32(at), Callbacks(sid), i);
    SelectNone([], Callbacks(sid));
    if i < |cs| {
      SelectPair(PeerExpired(cs[i].addr), LostCallback(sid), Callbacks(sid));
      if IsFound(s) {
        ClockComparison(at, s.value.found.value.due);
      }
    }
  }

  lemma OfferTold(cfg: SdConfig, sd: Sd, s: Option<Service>, e: Event, now: u32, sid: u16)
    requires Distinct(sd) && ServiceIs(ConsumerOf(sd, sid), s) && e.RxOffer?
    ensures Select(Step(cfg, sd, e, now).1, Callbacks(sid))
         == if e.sid != sid || !Counts(s, e.major, e.ttl) || !News(s, e.session, e.provider) then []
            else if IsFound(s) && s.value.found.value.session != e.session then
              [LostCallback(sid), FoundCallback(sid, e.provider)]
            else [FoundCallback(sid, e.provider)]
  {
    hide Select, FlagResubscribe;
    SelectNone([], Callbacks(sid));
    if e.sid != sid {
      SelectNone(Step(cfg, sd, e, now).1, Callbacks(sid));
    } else {
      SelectPair(LostCallback(sid), FoundCallback(sid, e.provider), Callbacks(sid));
      SelectPair(FoundCallback(sid, e.provider), FoundCallback(sid, e.provider), Callbacks(sid));
    }
  }

  /** What the application's calls answer: asking for a service or a subscription succeeds exactly
      when it is in the table or the table has room, taking a subscription back exactly when it is
      in the table. */
  lemma CallsAnswer(cfg: SdConfig, sd: Sd, sid: u16, eid: u16, major: u8, ttl: u16, now: u32)
    ensures Find(cfg, sd.consumers, sid, major, now).1
       <==> ConsumerOf(sd, sid).Some? || |sd.consumers| < cfg.maxKnownServices
    ensures SubscribeTo(cfg, sd.trackers, sid, eid, ttl, now).1
       <==> TrackerOf(sd, sid, eid).Some? || |sd.trackers| < cfg.maxSubTrackers
    ensures UnsubscribeFrom(sd.trackers, sid, eid).1 <==> TrackerOf(sd, sid, eid).Some?
  {
  }

  /** Every acknowledgement is reported as it came, whether or not a subscription waits for it. */
  lemma AckReported(cfg: SdConfig, sd: Sd, sid: u16, eid: u16, result: u8, ttl: u16, now: u32)
    ensures Step(cfg, sd, RxAck(sid, eid, result, ttl), now).1 == [AckCallback(sid, eid, result, ttl)]
  {
  }

  /** The subscription schedule, on every regular run from empty tables: a renewal pass sends
      the subscription to the provider exactly when the service is found, the subscription is
      active, not to be taken back, and is to be sent, or half its granted lease is over, or
      nothing is granted, the default lease is over and it was retried less than twice. It
      takes it back exactly once the application asked for that. */
  lemma RenewalSchedule(cfg: SdConfig, addr: Address, run: seq<At>, now: nat, sid: u16, eid: u16)
    requires Regular(run + [At(ProcessRenewals, now)])
    ensures var s, u := ServiceAt(cfg, addr, run, sid), SubAt(cfg, addr, run, sid, eid);
      var out := Handed(cfg, addr, run, At(ProcessRenewals, now));
      && Select(out, Subscribes(sid, eid))
         == (if u.Some? && Sends(cfg, s, u.value, now)
             then [Unicast(s.value.found.value.addr, SubscribeEvent(sid, eid, u.value.ttl))] else [])
      && Select(out, Unsubscribes(sid, eid))
         == (if u.Some? && Leaves(s, u.value)
             then [Unicast(s.value.found.value.addr, Unsubscribe(sid, eid))] else [])
  {
    hide Step, Select, RenewStep, ServiceIs, TrackerIs, TrackerOf, ConsumerOf, Sends, ServiceTimely;
    var all := run + [At(ProcessRenewals, now)];
    assert all[..|all| - 1] == run;
    RunInv(cfg, addr, run, sid, eid);
    var sd := After(cfg, addr, run);
    var s, u := ServiceAt(cfg, addr, run, sid), SubAt(cfg, addr, run, sid, eid);
    TrackerHasKey(sd, sid, eid);
    RenewalSends(cfg, sd, Wrap32(now), sid, eid, Subscribes(sid, eid));
    RenewalSends(cfg, sd, Wrap32(now), sid, eid, Unsubscribes(sid, eid));
    if u.Some? {
      var x := TrackerOf(sd, sid, eid).value;
      RenewTopics(cfg, sd.consumers, x, Wrap32(now));
      RenewIs(cfg, sd, s, x, u.value, now, run[|run| - 1].at, LastOf(run, ProcessRenewals));
      SendsOrLeaves(cfg, s, u.value, now);
    }
  }

  lemma SendsOrLeaves(cfg: SdConfig, s: Option<Service>, u: Sub, at: nat)
    ensures !(Sends(cfg, s, u, at) && Leaves(s, u))
  {
  }
}
