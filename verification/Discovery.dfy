/** The service-discovery state machines (`include/sero/service/service_discovery.hpp`):
what each operation does, as a function of the tables. */
module DiscoverySpec {
  import opened Words
  import opened SdMessages

  /** Compile-time configuration and the identity of the device. */
  datatype SdConfig = SdConfig(
    clientId: u16,
    maxServices: nat, maxKnownServices: nat, maxSubTrackers: nat,
    offerTtl: u16, subscriptionTtl: u16,
    findRetryCount: u8, findInitialDelayMs: u32, findBackoffMultiplier: u8, findJitterMs: u32)

  /** The jitter range `2 * SdFindJitterMs + 1` fits a signed 32-bit integer. */
  predicate ValidConfig(cfg: SdConfig) {
    2 * cfg.findJitterMs + 1 < TWO_31
  }

  datatype ProviderEntry = ProviderEntry(
    serviceId: u16, major: u8, minor: u8, ttl: u16, session: u16,
    offered: bool, lastOfferMs: u32, needsBroadcast: bool)

  datatype ConsumerState = NOT_FOUND | SEARCHING | FOUND

  datatype ConsumerEntry = ConsumerEntry(
    serviceId: u16, expectedMajor: u8, state: ConsumerState, addr: Address,
    ttlExpiryMs: u32, retryCount: u8, nextRetryMs: u32, session: u16, sessionValid: bool)

  datatype SubTracker = SubTracker(
    serviceId: u16, eventId: u16, requestedTtl: u16, grantedTtl: u16,
    active: bool, appRegistered: bool, needsSend: bool, needsUnsubscribe: bool,
    lastSentMs: u32, ackRetryCount: u8)

  /** What an operation hands to the transport, the runtime and the application, in order. */
  datatype Output =
    | Broadcast(msg: SdMessage)
    | Unicast(dest: Address, msg: SdMessage)
    | PeerExpired(addr: Address)
    | FoundCallback(serviceId: u16, addr: Address)
    | LostCallback(serviceId: u16)
    | AckCallback(serviceId: u16, eventId: u16, result: u8, grantedTtl: u16)

  datatype Sd = Sd(providers: seq<ProviderEntry>, consumers: seq<ConsumerEntry>, trackers: seq<SubTracker>,
                   localAddr: Address)

  // ------------------------------------------------------------------------ lookups

  function ProviderIndex(s: seq<ProviderEntry>, sid: u16): (i: nat)
    ensures i <= |s|
    ensures i < |s| ==> s[i].serviceId == sid
    ensures forall k :: 0 <= k < i ==> s[k].serviceId != sid
  {
    if s == [] || s[0].serviceId == sid then 0 else 1 + ProviderIndex(s[1..], sid)
  }

  function ConsumerIndex(s: seq<ConsumerEntry>, sid: u16): (i: nat)
    ensures i <= |s|
    ensures i < |s| ==> s[i].serviceId == sid
    ensures forall k :: 0 <= k < i ==> s[k].serviceId != sid
  {
    if s == [] || s[0].serviceId == sid then 0 else 1 + ConsumerIndex(s[1..], sid)
  }

  predicate IsTracker(t: SubTracker, sid: u16, eid: u16) {
    t.serviceId == sid && t.eventId == eid
  }

  function TrackerIndex(s: seq<SubTracker>, sid: u16, eid: u16): (i: nat)
    ensures i <= |s|
    ensures i < |s| ==> IsTracker(s[i], sid, eid)
    ensures forall k :: 0 <= k < i ==> !IsTracker(s[k], sid, eid)
  {
    if s == [] || IsTracker(s[0], sid, eid) then 0 else 1 + TrackerIndex(s[1..], sid, eid)
  }

  // ------------------------------------------------- session identifiers and jitter

  /** `(client_id << 16 | service_id) ^ now_ms`, half by half. */
  function SessionSeed(clientId: u16, sid: u16, now: u32): u32 {
    (Xor16(clientId, now / TWO_16) as int) * TWO_16 + Xor16(sid, now % TWO_16)
  }

  /** The low half of the multiplicative hash. */
  function SessionHash(clientId: u16, sid: u16, now: u32): u16 {
    Wrap32(SessionSeed(clientId, sid, now) * 2654435761) % TWO_16
  }

  function SessionId(clientId: u16, sid: u16, now: u32): u16 {
    var id := SessionHash(clientId, sid, now);
    if id == 0 then 1 else id
  }

  /** `client_id << 16 | (service_id ^ retry * 0x9E3779B9)`, half by half. */
  function JitterSeed(clientId: u16, sid: u16, retry: u8): u32 {
    var product := Wrap32((retry as int) * 0x9E3779B9);
    (Or16(clientId, product / TWO_16) as int) * TWO_16 + Xor16(sid, product % TWO_16)
  }

  /** Between minus and plus `SdFindJitterMs`. */
  function Jitter(cfg: SdConfig, sid: u16, retry: u8): (j: int)
    ensures 0 - cfg.findJitterMs <= j <= cfg.findJitterMs
  {
    Wrap32(JitterSeed(cfg.clientId, sid, retry) * 1103515245 + 12345) % (2 * cfg.findJitterMs + 1) - cfg.findJitterMs
  }

  /** The `uint32_t` product built up by the backoff loop. */
  function Backoff(cfg: SdConfig, k: nat): u32 {
    if k == 0 then cfg.findInitialDelayMs else Wrap32(Backoff(cfg, k - 1) * cfg.findBackoffMultiplier)
  }

  function NextRetry(cfg: SdConfig, sid: u16, retry: u8, now: u32): u32 {
    var next := now + Backoff(cfg, retry) + Jitter(cfg, sid, retry);
    if next > 0 then Wrap32(next) else now
  }

  // ------------------------------------------------------------------- application calls

  function Offer(cfg: SdConfig, s: seq<ProviderEntry>, sid: u16, major: u8, minor: u8, ttl: u16,
                 now: u32): (seq<ProviderEntry>, bool) {
    var i := ProviderIndex(s, sid);
    var pe := ProviderEntry(sid, major, minor, if ttl > 0 then ttl else cfg.offerTtl, SessionId(cfg.clientId, sid, now),
                            true, now, true);
    if i < |s| then (s[i := pe], true)
    else if |s| >= cfg.maxServices then (s, false)
    else (s + [pe], true)
  }

  function StopOffer(s: seq<ProviderEntry>, sid: u16): seq<ProviderEntry> {
    var i := ProviderIndex(s, sid);
    if i < |s| then s[i := s[i].(offered := false)] else s
  }

  const NEW_CONSUMER := ConsumerEntry(0, 0, NOT_FOUND, [], 0, 0, 0, 0, false)

  function Searching(ce: ConsumerEntry, sid: u16, major: u8, now: u32): ConsumerEntry {
    ce.(serviceId := sid, expectedMajor := major, state := SEARCHING, retryCount := 0, nextRetryMs := now,
        ttlExpiryMs := 0)
  }

  function Find(cfg: SdConfig, s: seq<ConsumerEntry>, sid: u16, major: u8, now: u32): (seq<ConsumerEntry>, bool) {
    var i := ConsumerIndex(s, sid);
    if i < |s| then (s[i := Searching(s[i], sid, major, now)], true)
    else if |s| >= cfg.maxKnownServices then (s, false)
    else (s + [Searching(NEW_CONSUMER, sid, major, now)], true)
  }

  const NEW_TRACKER := SubTracker(0, 0, 0, 0, false, false, false, false, 0, 0)

  /** Note that a pending unsubscribe and the retry count of an old subscription stay. */
  function Subscribed(t: SubTracker, sid: u16, eid: u16, ttl: u16, now: u32): SubTracker {
    t.(serviceId := sid, eventId := eid, requestedTtl := ttl, grantedTtl := 0, active := true, appRegistered := true,
       needsSend := true, lastSentMs := now)
  }

  function SubscribeTo(cfg: SdConfig, s: seq<SubTracker>, sid: u16, eid: u16, ttl: u16,
                       now: u32): (seq<SubTracker>, bool) {
    var i := TrackerIndex(s, sid, eid);
    if i < |s| then (s[i := Subscribed(s[i], sid, eid, ttl, now)], true)
    else if |s| >= cfg.maxSubTrackers then (s, false)
    else (s + [Subscribed(NEW_TRACKER, sid, eid, ttl, now)], true)
  }

  function UnsubscribeFrom(s: seq<SubTracker>, sid: u16, eid: u16): (seq<SubTracker>, bool) {
    var i := TrackerIndex(s, sid, eid);
    if i < |s| then (s[i := s[i].(appRegistered := false, needsUnsubscribe := true)], true) else (s, false)
  }

  // ------------------------------------------------------------------------ process

  function OfferOf(pe: ProviderEntry, localAddr: Address): SdMessage {
    OfferService(pe.serviceId, pe.major, pe.minor, pe.ttl, pe.session, localAddr)
  }

  predicate OfferDue(pe: ProviderEntry, now: u32) {
    pe.offered && (pe.needsBroadcast || TimeAfterOrEq(now, Wrap32(pe.lastOfferMs + 500 * pe.ttl)))
  }

  function OfferStep(pe: ProviderEntry, localAddr: Address, now: u32): (ProviderEntry, seq<Output>) {
    if OfferDue(pe, now) then (pe.(lastOfferMs := now, needsBroadcast := false), [Broadcast(OfferOf(pe, localAddr))])
    else (pe, [])
  }

  function FindStep(cfg: SdConfig, ce: ConsumerEntry, now: u32): (ConsumerEntry, seq<Output>) {
    if ce.state != SEARCHING || !TimeAfterOrEq(now, ce.nextRetryMs) then (ce, [])
    else
      var retry := (ce.retryCount + 1) % 256;
      if retry > cfg.findRetryCount then
        (ce.(retryCount := retry, state := NOT_FOUND),
         [Broadcast(FindService(ce.serviceId)), LostCallback(ce.serviceId)])
      else
        (ce.(retryCount := retry, nextRetryMs := NextRetry(cfg, ce.serviceId, retry, now)),
         [Broadcast(FindService(ce.serviceId))])
  }

  predicate TtlExpired(ce: ConsumerEntry, now: u32) {
    ce.state == FOUND && TimeAfter(now, ce.ttlExpiryMs)
  }

  function TtlStep(ce: ConsumerEntry, now: u32): (ConsumerEntry, seq<Output>) {
    if TtlExpired(ce, now) then
      (ce.(state := NOT_FOUND, sessionValid := false), [PeerExpired(ce.addr), LostCallback(ce.serviceId)])
    else (ce, [])
  }

  function SubscribeOf(t: SubTracker): SdMessage {
    SubscribeEvent(t.serviceId, t.eventId, t.requestedTtl)
  }

  /** The address of a service while it is FOUND. */
  function ProviderOf(consumers: seq<ConsumerEntry>, sid: u16): Option<Address> {
    var i := ConsumerIndex(consumers, sid);
    if i < |consumers| && consumers[i].state == FOUND then Some(consumers[i].addr) else None
  }

  function RenewStep(cfg: SdConfig, consumers: seq<ConsumerEntry>, t: SubTracker, now: u32): (SubTracker, seq<Output>) {
    var dest := ProviderOf(consumers, t.serviceId);
    if !t.active || dest.None? then (t, [])
    else if t.needsUnsubscribe then
      (t.(active := false, needsUnsubscribe := false), [Unicast(dest.value, Unsubscribe(t.serviceId, t.eventId))])
    else if t.needsSend then
      (t.(needsSend := false, lastSentMs := now), [Unicast(dest.value, SubscribeOf(t))])
    else if t.grantedTtl > 0 then
      if TimeAfterOrEq(now, Wrap32(t.lastSentMs + 500 * t.grantedTtl)) then
        (t.(lastSentMs := now), [Unicast(dest.value, SubscribeOf(t))])
      else (t, [])
    else if TimeAfterOrEq(now, Wrap32(t.lastSentMs + 1000 * cfg.subscriptionTtl)) then
      if t.ackRetryCount < 2 then
        (t.(lastSentMs := now, ackRetryCount := t.ackRetryCount + 1), [Unicast(dest.value, SubscribeOf(t))])
      else (t.(active := false), [])
    else (t, [])
  }

  // The loops: one step per entry, outputs in table order.

  function OffersStepped(s: seq<ProviderEntry>, localAddr: Address, now: u32): (r: seq<ProviderEntry>)
    ensures |r| == |s|
  {
    seq(|s|, i requires 0 <= i < |s| => OfferStep(s[i], localAddr, now).0)
  }

  function OffersOutput(s: seq<ProviderEntry>, localAddr: Address, now: u32): seq<Output> {
    if s == [] then [] else OffersOutput(s[..|s| - 1], localAddr, now) + OfferStep(s[|s| - 1], localAddr, now).1
  }

  function FindsStepped(cfg: SdConfig, s: seq<ConsumerEntry>, now: u32): (r: seq<ConsumerEntry>)
    ensures |r| == |s|
  {
    seq(|s|, i requires 0 <= i < |s| => FindStep(cfg, s[i], now).0)
  }

  function FindsOutput(cfg: SdConfig, s: seq<ConsumerEntry>, now: u32): seq<Output> {
    if s == [] then [] else FindsOutput(cfg, s[..|s| - 1], now) + FindStep(cfg, s[|s| - 1], now).1
  }

  function TtlsStepped(s: seq<ConsumerEntry>, now: u32): (r: seq<ConsumerEntry>)
    ensures |r| == |s|
  {
    seq(|s|, i requires 0 <= i < |s| => TtlStep(s[i], now).0)
  }

  function TtlsOutput(s: seq<ConsumerEntry>, now: u32): seq<Output> {
    if s == [] then [] else TtlsOutput(s[..|s| - 1], now) + TtlStep(s[|s| - 1], now).1
  }

  function RenewalsStepped(cfg: SdConfig, consumers: seq<ConsumerEntry>, s: seq<SubTracker>,
                           now: u32): (r: seq<SubTracker>)
    ensures |r| == |s|
  {
    seq(|s|, i requires 0 <= i < |s| => RenewStep(cfg, consumers, s[i], now).0)
  }

  function RenewalsOutput(cfg: SdConfig, consumers: seq<ConsumerEntry>, s: seq<SubTracker>, now: u32): seq<Output> {
    if s == [] then []
    else RenewalsOutput(cfg, consumers, s[..|s| - 1], now) + RenewStep(cfg, consumers, s[|s| - 1], now).1
  }

  // --------------------------------------------------------------- incoming messages

  predicate Reboot(ce: ConsumerEntry, session: u16) {
    ce.sessionValid && ce.state == FOUND && ce.session != session
  }

  /** `detect_reboot`. */
  predicate DetectReboot(s: seq<ConsumerEntry>, sid: u16, session: u16) {
    var i := ConsumerIndex(s, sid);
    i < |s| && Reboot(s[i], session)
  }

  function Flagged(t: SubTracker, sid: u16, now: u32): SubTracker {
    if t.appRegistered && t.serviceId == sid then
      t.(active := true, ackRetryCount := 0, needsSend := true, grantedTtl := 0, lastSentMs := now)
    else t
  }

  function FlagResubscribe(s: seq<SubTracker>, sid: u16, now: u32): (r: seq<SubTracker>)
    ensures |r| == |s|
  {
    seq(|s|, i requires 0 <= i < |s| => Flagged(s[i], sid, now))
  }

  predicate OfferRelevant(s: seq<ConsumerEntry>, sid: u16, major: u8, ttl: u16) {
    ttl != 0 && ConsumerIndex(s, sid) < |s| && s[ConsumerIndex(s, sid)].expectedMajor == major
  }

  function HandleOffer(sd: Sd, sid: u16, major: u8, ttl: u16, session: u16, provider: Address,
                       now: u32): (Sd, seq<Output>) {
    if !OfferRelevant(sd.consumers, sid, major, ttl) then (sd, [])
    else
      var i := ConsumerIndex(sd.consumers, sid);
      var ce := sd.consumers[i];
      var ce' := ce.(addr := provider, ttlExpiryMs := Wrap32(now + 1000 * ttl), session := session,
                     sessionValid := true, state := FOUND);
      var sd' := sd.(consumers := sd.consumers[i := ce']);
      var flagged := sd'.(trackers := FlagResubscribe(sd.trackers, sid, now));
      if Reboot(ce, session) then (flagged, [LostCallback(sid), FoundCallback(sid, provider)])
      else if ce.state != FOUND || ce.addr != provider then (flagged, [FoundCallback(sid, provider)])
      else (sd', [])
  }

  function FindReplies(s: seq<ProviderEntry>, localAddr: Address, sid: u16, source: Address): seq<Output> {
    if s == [] then []
    else
      var pe := s[|s| - 1];
      FindReplies(s[..|s| - 1], localAddr, sid, source)
      + (if pe.offered && (sid == 0xFFFF || pe.serviceId == sid) then [Unicast(source, OfferOf(pe, localAddr))] else [])
  }

  function HandleAck(s: seq<SubTracker>, sid: u16, eid: u16, result: u8, granted: u16): seq<SubTracker> {
    var i := TrackerIndex(s, sid, eid);
    if i < |s| && s[i].active then
      s[i := if result == 0 then s[i].(grantedTtl := granted) else s[i].(active := false)]
    else s
  }

  // ------------------------------------------------------------------------- steps

  datatype Event =
    | OfferCall(sid: u16, major: u8, minor: u8, ttl: u16)
    | StopOfferCall(sid: u16)
    | FindCall(sid: u16, major: u8)
    | SubscribeCall(sid: u16, eid: u16, ttl: u16)
    | UnsubscribeCall(sid: u16, eid: u16)
    | ProcessOffers
    | ProcessRenewals
    | ProcessTtls
    | ProcessFinds
    | RxOffer(sid: u16, major: u8, ttl: u16, session: u16, provider: Address)
    | RxFind(sid: u16, source: Address)
    | RxAck(sid: u16, eid: u16, result: u8, ttl: u16)

  function Step(cfg: SdConfig, sd: Sd, e: Event, now: u32): (Sd, seq<Output>) {
    match e
    case OfferCall(sid, major, minor, ttl) =>
      (sd.(providers := Offer(cfg, sd.providers, sid, major, minor, ttl, now).0), [])
    case StopOfferCall(sid) => (sd.(providers := StopOffer(sd.providers, sid)), [])
    case FindCall(sid, major) => (sd.(consumers := Find(cfg, sd.consumers, sid, major, now).0), [])
    case SubscribeCall(sid, eid, ttl) => (sd.(trackers := SubscribeTo(cfg, sd.trackers, sid, eid, ttl, now).0), [])
    case UnsubscribeCall(sid, eid) => (sd.(trackers := UnsubscribeFrom(sd.trackers, sid, eid).0), [])
    case ProcessOffers =>
      (sd.(providers := OffersStepped(sd.providers, sd.localAddr, now)), OffersOutput(sd.providers, sd.localAddr, now))
    case ProcessRenewals =>
      (sd.(trackers := RenewalsStepped(cfg, sd.consumers, sd.trackers, now)),
       RenewalsOutput(cfg, sd.consumers, sd.trackers, now))
    case ProcessTtls => (sd.(consumers := TtlsStepped(sd.consumers, now)), TtlsOutput(sd.consumers, now))
    case ProcessFinds => (sd.(consumers := FindsStepped(cfg, sd.consumers, now)), FindsOutput(cfg, sd.consumers, now))
    case RxOffer(sid, major, ttl, session, provider) => HandleOffer(sd, sid, major, ttl, session, provider, now)
    case RxFind(sid, source) => (sd, FindReplies(sd.providers, sd.localAddr, sid, source))
    case RxAck(sid, eid, result, ttl) =>
      (sd.(trackers := HandleAck(sd.trackers, sid, eid, result, ttl)), [AckCallback(sid, eid, result, ttl)])
  }
}

/** The object that updates the tables in place. */
module Discovery {
  import opened Words
  import opened SdMessages
  import opened DiscoverySpec

  class ServiceDiscovery {
    const cfg: SdConfig
    const providers: array<ProviderEntry>
    var providerCount: nat
    const consumers: array<ConsumerEntry>
    var consumerCount: nat
    const trackers: array<SubTracker>
    var trackerCount: nat
    var localAddr: Address

    ghost predicate Valid()
      reads this
    {
      && ValidConfig(cfg)
      && providerCount <= providers.Length == cfg.maxServices
      && consumerCount <= consumers.Length == cfg.maxKnownServices
      && trackerCount <= trackers.Length == cfg.maxSubTrackers
    }

    ghost function State(): Sd
      requires Valid()
      reads this, providers, consumers, trackers
    {
      Sd(providers[..providerCount], consumers[..consumerCount], trackers[..trackerCount], localAddr)
    }

    constructor (cfg: SdConfig)
      requires ValidConfig(cfg)
      ensures Valid() && State() == Sd([], [], [], []) && this.cfg == cfg
      ensures fresh(providers) && fresh(consumers) && fresh(trackers)
    {
      this.cfg := cfg;
      providers := new ProviderEntry[cfg.maxServices](_ => ProviderEntry(0, 0, 0, 0, 0, false, 0, false));
      consumers := new ConsumerEntry[cfg.maxKnownServices](_ => NEW_CONSUMER);
      trackers := new SubTracker[cfg.maxSubTrackers](_ => NEW_TRACKER);
      providerCount, consumerCount, trackerCount := 0, 0, 0;
      localAddr := [];
    }

    method SetLocalAddress(addr: Address)
      requires Valid()
      modifies this`localAddr
      ensures Valid() && State() == old(State()).(localAddr := addr)
    {
      localAddr := addr;
    }

    // ------------------------------------------------------------------- lookups

    method FindProvider(sid: u16) returns (i: nat)
      requires Valid()
      ensures i == ProviderIndex(State().providers, sid)
    {
      i := 0;
      while i < providerCount && providers[i].serviceId != sid
        invariant i <= providerCount && forall k :: 0 <= k < i ==> providers[k].serviceId != sid
      {
        i := i + 1;
      }
    }

    method FindConsumer(sid: u16) returns (i: nat)
      requires Valid()
      ensures i == ConsumerIndex(State().consumers, sid)
    {
      i := 0;
      while i < consumerCount && consumers[i].serviceId != sid
        invariant i <= consumerCount && forall k :: 0 <= k < i ==> consumers[k].serviceId != sid
      {
        i := i + 1;
      }
    }

    method FindTracker(sid: u16, eid: u16) returns (i: nat)
      requires Valid()
      ensures i == TrackerIndex(State().trackers, sid, eid)
    {
      i := 0;
      while i < trackerCount && !IsTracker(trackers[i], sid, eid)
        invariant i <= trackerCount && forall k :: 0 <= k < i ==> !IsTracker(trackers[k], sid, eid)
      {
        i := i + 1;
      }
    }

    method GetProviderAddress(sid: u16) returns (addr: Option<Address>)
      requires Valid()
      ensures addr == ProviderOf(State().consumers, sid)
    {
      var i := FindConsumer(sid);
      if i < consumerCount && consumers[i].state == FOUND {
        return Some(consumers[i].addr);
      }
      return None;
    }

    method DetectProviderReboot(sid: u16, session: u16) returns (reboot: bool)
      requires Valid()
      ensures reboot == DetectReboot(State().consumers, sid, session)
    {
      var i := FindConsumer(sid);
      if i == consumerCount {
        return false;
      }
      return Reboot(consumers[i], session);
    }

    // --------------------------------------------------------- application calls

    method OfferService(sid: u16, major: u8, minor: u8, ttl: u16, now: u32) returns (ok: bool)
      requires Valid()
      modifies this`providerCount, providers
      ensures Valid() && State() == Step(cfg, old(State()), OfferCall(sid, major, minor, ttl), now).0
      ensures ok == Offer(cfg, old(State()).providers, sid, major, minor, ttl, now).1
    {
      hide SessionId;
      var i := FindProvider(sid);
      if i == providerCount {
        if providerCount >= providers.Length {
          return false;
        }
        providerCount := providerCount + 1;
      }
      providers[i] := ProviderEntry(sid, major, minor, if ttl > 0 then ttl else cfg.offerTtl,
                                    SessionId(cfg.clientId, sid, now), true, now, true);
      return true;
    }

    method StopOfferService(sid: u16)
      requires Valid()
      modifies providers
      ensures Valid() && State() == Step(cfg, old(State()), StopOfferCall(sid), 0).0
    {
      var i := FindProvider(sid);
      if i < providerCount {
        providers[i] := providers[i].(offered := false);
      }
    }

    method FindServiceById(sid: u16, major: u8, now: u32) returns (ok: bool)
      requires Valid()
      modifies this`consumerCount, consumers
      ensures Valid() && State() == Step(cfg, old(State()), FindCall(sid, major), now).0
      ensures ok == Find(cfg, old(State()).consumers, sid, major, now).1
    {
      var i := FindConsumer(sid);
      if i == consumerCount {
        if consumerCount >= consumers.Length {
          return false;
        }
        consumers[i] := NEW_CONSUMER;
        consumerCount := consumerCount + 1;
      }
      consumers[i] := Searching(consumers[i], sid, major, now);
      return true;
    }

    method SubscribeToEvent(sid: u16, eid: u16, ttl: u16, now: u32) returns (ok: bool)
      requires Valid()
      modifies this`trackerCount, trackers
      ensures Valid() && State() == Step(cfg, old(State()), SubscribeCall(sid, eid, ttl), now).0
      ensures ok == SubscribeTo(cfg, old(State()).trackers, sid, eid, ttl, now).1
    {
      var i := FindTracker(sid, eid);
      if i == trackerCount {
        if trackerCount >= trackers.Length {
          return false;
        }
        trackers[i] := NEW_TRACKER;
        trackerCount := trackerCount + 1;
      }
      trackers[i] := Subscribed(trackers[i], sid, eid, ttl, now);
      return true;
    }

    method UnsubscribeFromEvent(sid: u16, eid: u16) returns (ok: bool)
      requires Valid()
      modifies trackers
      ensures Valid() && State() == Step(cfg, old(State()), UnsubscribeCall(sid, eid), 0).0
      ensures ok == UnsubscribeFrom(old(State()).trackers, sid, eid).1
    {
      var i := FindTracker(sid, eid);
      if i == trackerCount {
        return false;
      }
      trackers[i] := trackers[i].(appRegistered := false, needsUnsubscribe := true);
      return true;
    }

    // ------------------------------------------------------------- process cycle

    method RunOffers(now: u32) returns (out: seq<Output>)
      requires Valid()
      modifies providers
      ensures Valid() && State() == old(State()).(providers := OffersStepped(old(State()).providers, localAddr, now))
      ensures out == OffersOutput(old(State()).providers, localAddr, now)
    {
      out := [];
      ghost var s := State().providers;
      for i := 0 to providerCount
        invariant forall k :: 0 <= k < i ==> providers[k] == OfferStep(s[k], localAddr, now).0
        invariant forall k :: i <= k < providerCount ==> providers[k] == s[k]
        invariant out == OffersOutput(s[..i], localAddr, now)
      {
        assert s[..i + 1][..i] == s[..i];
        var pe := providers[i];
        if OfferDue(pe, now) {
          out := out + [Broadcast(OfferOf(pe, localAddr))];
          providers[i] := pe.(lastOfferMs := now, needsBroadcast := false);
        }
      }
      assert s[..providerCount] == s;
      assert State().providers == OffersStepped(s, localAddr, now);
    }

    method RunFinds(now: u32) returns (out: seq<Output>)
      requires Valid()
      modifies consumers
      ensures Valid() && State() == old(State()).(consumers := FindsStepped(cfg, old(State()).consumers, now))
      ensures out == FindsOutput(cfg, old(State()).consumers, now)
    {
      hide FindStep;
      out := [];
      ghost var s := State().consumers;
      for i := 0 to consumerCount
        invariant forall k :: 0 <= k < i ==> consumers[k] == FindStep(cfg, s[k], now).0
        invariant forall k :: i <= k < consumerCount ==> consumers[k] == s[k]
        invariant out == FindsOutput(cfg, s[..i], now)
      {
        assert s[..i + 1][..i] == s[..i];
        var ce, more := FindOne(consumers[i], now);
        consumers[i] := ce;
        out := out + more;
      }
      assert s[..consumerCount] == s;
      assert State().consumers == FindsStepped(cfg, s, now);
    }

    /** The body of the find loop for one entry. */
    method FindOne(ce: ConsumerEntry, now: u32) returns (ce': ConsumerEntry, out: seq<Output>)
      ensures (ce', out) == FindStep(cfg, ce, now)
    {
      hide Jitter;
      ce', out := ce, [];
      if ce.state != SEARCHING || !TimeAfterOrEq(now, ce.nextRetryMs) {
        return;
      }
      out := [Broadcast(FindService(ce.serviceId))];
      ce' := ce'.(retryCount := (ce.retryCount + 1) % 256);
      if ce'.retryCount > cfg.findRetryCount {
        ce' := ce'.(state := NOT_FOUND);
        out := out + [LostCallback(ce.serviceId)];
        assert out == [Broadcast(FindService(ce.serviceId)), LostCallback(ce.serviceId)];
      } else {
        var delay := BackoffDelay(ce'.retryCount);
        var next := now + delay + Jitter(cfg, ce.serviceId, ce'.retryCount);
        ce' := ce'.(nextRetryMs := if next > 0 then Wrap32(next) else now);
      }
    }

    /** The exponential backoff loop. */
    method BackoffDelay(retryCount: u8) returns (delay: u32)
      ensures delay == Backoff(cfg, retryCount)
    {
      delay := cfg.findInitialDelayMs;
      for j := 0 to retryCount
        invariant delay == Backoff(cfg, j)
      {
        delay := Wrap32((delay as int) * cfg.findBackoffMultiplier);
      }
    }

    method RunConsumerTtls(now: u32) returns (out: seq<Output>)
      requires Valid()
      modifies consumers
      ensures Valid() && State() == old(State()).(consumers := TtlsStepped(old(State()).consumers, now))
      ensures out == TtlsOutput(old(State()).consumers, now)
    {
      out := [];
      ghost var s := State().consumers;
      for i := 0 to consumerCount
        invariant forall k :: 0 <= k < i ==> consumers[k] == TtlStep(s[k], now).0
        invariant forall k :: i <= k < consumerCount ==> consumers[k] == s[k]
        invariant out == TtlsOutput(s[..i], now)
      {
        assert s[..i + 1][..i] == s[..i];
        var ce := consumers[i];
        if TtlExpired(ce, now) {
          consumers[i] := ce.(state := NOT_FOUND, sessionValid := false);
          out := out + [PeerExpired(ce.addr), LostCallback(ce.serviceId)];
        }
      }
      assert s[..consumerCount] == s;
      assert State().consumers == TtlsStepped(s, now);
    }

    method RunRenewals(now: u32) returns (out: seq<Output>)
      requires Valid()
      modifies trackers
      ensures Valid() && State() == old(State()).(trackers := RenewalsStepped(cfg, State().consumers,
        old(State()).trackers, now))
      ensures out == RenewalsOutput(cfg, State().consumers, old(State()).trackers, now)
    {
      hide RenewStep;
      out := [];
      ghost var s, cs := State().trackers, State().consumers;
      for i := 0 to trackerCount
        invariant forall k :: 0 <= k < i ==> trackers[k] == RenewStep(cfg, cs, s[k], now).0
        invariant forall k :: i <= k < trackerCount ==> trackers[k] == s[k]
        invariant out == RenewalsOutput(cfg, cs, s[..i], now)
      {
        assert s[..i + 1][..i] == s[..i];
        var t, more := RenewOne(trackers[i], now);
        trackers[i] := t;
        out := out + more;
      }
      assert s[..trackerCount] == s;
      assert State().trackers == RenewalsStepped(cfg, cs, s, now);
    }

    /** The body of the renewal loop for one tracker. */
    method RenewOne(t: SubTracker, now: u32) returns (t': SubTracker, out: seq<Output>)
      requires Valid()
      ensures (t', out) == RenewStep(cfg, State().consumers, t, now)
    {
      t', out := t, [];
      if !t.active {
        return;
      }
      var dest := GetProviderAddress(t.serviceId);
      if dest.None? {
        return;
      }
      if t.needsUnsubscribe {
        out := [Unicast(dest.value, Unsubscribe(t.serviceId, t.eventId))];
        t' := t.(active := false, needsUnsubscribe := false);
        return;
      }
      if t.needsSend {
        out := [Unicast(dest.value, SubscribeOf(t))];
        t' := t.(needsSend := false, lastSentMs := now);
        return;
      }
      if t.grantedTtl > 0 {
        var interval := 500 * (t.grantedTtl as int);
        if TimeAfterOrEq(now, Wrap32(t.lastSentMs + interval)) {
          out := [Unicast(dest.value, SubscribeOf(t))];
          t' := t.(lastSentMs := now);
        }
      } else {
        var interval := 1000 * (cfg.subscriptionTtl as int);
        if TimeAfterOrEq(now, Wrap32(t.lastSentMs + interval)) {
          if t.ackRetryCount < 2 {
            out := [Unicast(dest.value, SubscribeOf(t))];
            t' := t.(lastSentMs := now, ackRetryCount := t.ackRetryCount + 1);
          } else {
            t' := t.(active := false);
          }
        }
      }
    }

    // --------------------------------------------------------- incoming messages

    method OnOffer(sid: u16, major: u8, ttl: u16, session: u16, provider: Address, now: u32) returns (out: seq<Output>)
      requires Valid()
      modifies consumers, trackers
      ensures Valid() && (State(), out) == Step(cfg, old(State()), RxOffer(sid, major, ttl, session, provider), now)
    {
      if ttl == 0 {
        return [];
      }
      var i := FindConsumer(sid);
      if i == consumerCount || consumers[i].expectedMajor != major {
        return [];
      }
      var ce := consumers[i];
      var reboot := Reboot(ce, session);
      var newProvider := ce.state != FOUND || ce.addr != provider;
      var ttlMs := 1000 * (ttl as int);
      consumers[i] := ce.(addr := provider, ttlExpiryMs := Wrap32(now + ttlMs), session := session,
                          sessionValid := true, state := FOUND);
      out := [];
      if reboot {
        out := [LostCallback(sid), FoundCallback(sid, provider)];
        FlagAll(sid, now);
      } else if newProvider {
        FlagAll(sid, now);
        out := [FoundCallback(sid, provider)];
      }
    }

    /** `flag_resubscribe`. */
    method FlagAll(sid: u16, now: u32)
      requires Valid()
      modifies trackers
      ensures Valid() && State() == old(State()).(trackers := FlagResubscribe(old(State()).trackers, sid, now))
    {
      ghost var s := State().trackers;
      for i := 0 to trackerCount
        invariant forall k :: 0 <= k < i ==> trackers[k] == Flagged(s[k], sid, now)
        invariant forall k :: i <= k < trackerCount ==> trackers[k] == s[k]
      {
        trackers[i] := Flagged(trackers[i], sid, now);
      }
      assert State().trackers == FlagResubscribe(s, sid, now);
    }

    method OnFind(sid: u16, source: Address) returns (out: seq<Output>)
      requires Valid()
      ensures out == FindReplies(State().providers, localAddr, sid, source)
    {
      out := [];
      var wildcard := sid == 0xFFFF;
      for i := 0 to providerCount
        invariant out == FindReplies(State().providers[..i], localAddr, sid, source)
      {
        assert State().providers[..i + 1][..i] == State().providers[..i];
        var pe := providers[i];
        if pe.offered && (wildcard || pe.serviceId == sid) {
          out := out + [Unicast(source, OfferOf(pe, localAddr))];
        }
      }
      assert State().providers[..providerCount] == State().providers;
    }

    method OnAck(sid: u16, eid: u16, result: u8, granted: u16) returns (out: seq<Output>)
      requires Valid()
      modifies trackers
      ensures Valid() && (State(), out) == Step(cfg, old(State()), RxAck(sid, eid, result, granted), 0)
    {
      var i := FindTracker(sid, eid);
      if i < trackerCount && trackers[i].active {
        if result == 0 {
          trackers[i] := trackers[i].(grantedTtl := granted);
        } else {
          trackers[i] := trackers[i].(active := false);
        }
      }
      out := [AckCallback(sid, eid, result, granted)];
    }
  }
}
