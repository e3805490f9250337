/** Session identifiers and reboot detection (section 4.7 of the protocol). */
module SessionIds {
  import opened Words
  import opened SdMessages
  import opened DiscoverySpec
  import opened DiscoveryLog

  /** Only the low halves of seed and multiplier reach the identifier. */
  lemma HashIsLow(clientId: u16, sid: u16, now: u32)
    ensures SessionHash(clientId, sid, now) == (Xor16(sid, now % TWO_16) as int) * 2654435761 % TWO_16
  {
    hide Xor16;
    var hi, lo := Xor16(clientId, now / TWO_16), Xor16(sid, now % TWO_16);
    LowProduct(hi, lo, 2654435761);
  }

  lemma LowProduct(hi: int, lo: int, k: int)
    requires k == 2654435761
    ensures Wrap32((hi * TWO_16 + lo) * k) % TWO_16 == lo * k % TWO_16
  {
    var p := (hi * TWO_16 + lo) * k;
    var q := p / TWO_32;
    assert p == TWO_16 * (hi * k) + lo * k;
    assert Wrap32(p) == lo * k + TWO_16 * (hi * k - TWO_16 * q);
    ModMultiple(lo * k, hi * k - TWO_16 * q);
  }

  lemma ModMultiple(a: int, m: int)
    ensures (a + TWO_16 * m) % TWO_16 == a % TWO_16
  {
    var q, r := a / TWO_16, a % TWO_16;
    assert a + TWO_16 * m == TWO_16 * (q + m) + r;
  }

  /** Multiplying by the odd constant is a bijection modulo 2^16: 12113 undoes it. */
  lemma OddMultiplier(a: int, b: int)
    requires a * 2654435761 % TWO_16 == b * 2654435761 % TWO_16
    ensures a % TWO_16 == b % TWO_16
  {
    Undo(a);
    Undo(b);
    var x, y := a * 2654435761, b * 2654435761;
    var m := x / TWO_16 - y / TWO_16;
    assert x == y + TWO_16 * m;
    assert x * 12113 == y * 12113 + TWO_16 * (m * 12113);
    ModMultiple(y * 12113, m * 12113);
  }

  lemma Undo(a: int)
    ensures (a * 2654435761) * 12113 % TWO_16 == a % TWO_16
  {
    assert (a * 2654435761) * 12113 == a + TWO_16 * (a * 490618597);
    ModMultiple(a, a * 490618597);
  }

  /** Two times hash alike exactly when they agree modulo 2^16, whatever the client. */
  lemma HashCollision(clientId: u16, sid: u16, t1: u32, t2: u32)
    ensures SessionHash(clientId, sid, t1) == SessionHash(clientId, sid, t2) <==> t1 % TWO_16 == t2 % TWO_16
  {
    hide Xor16, SessionHash;
    HashIsLow(clientId, sid, t1);
    HashIsLow(clientId, sid, t2);
    var x, y := Xor16(sid, t1 % TWO_16), Xor16(sid, t2 % TWO_16);
    if SessionHash(clientId, sid, t1) == SessionHash(clientId, sid, t2) {
      OddMultiplier(x, y);
      Xor16Injective(sid, t1 % TWO_16, t2 % TWO_16);
    }
  }

  /** One hash is 0 and the other 1: the identifier never is 0, so both become 1. */
  predicate ZeroAndOne(h1: u16, h2: u16) {
    (h1 == 0 && h2 == 1) || (h1 == 1 && h2 == 0)
  }

  /** Two boots of one service get the same session identifier exactly when their times
      agree modulo 2^16, or when their hashes are 0 and 1. */
  lemma SessionCollision(clientId: u16, sid: u16, t1: u32, t2: u32)
    ensures SessionId(clientId, sid, t1) == SessionId(clientId, sid, t2)
      <==> t1 % TWO_16 == t2 % TWO_16 || ZeroAndOne(SessionHash(clientId, sid, t1), SessionHash(clientId, sid, t2))
  {
    hide SessionHash;
    HashCollision(clientId, sid, t1, t2);
  }

  /** A FOUND consumer that holds the session of the boot at `t1` reports a relevant offer
      of a boot at `t2` as lost and found again exactly when the identifiers differ, that
      is unless the two boots collide. */
  lemma RebootDetected(sd: Sd, clientId: u16, sid: u16, major: u8, ttl: u16, t1: u32, t2: u32, provider: Address,
                       now: u32)
    requires OfferRelevant(sd.consumers, sid, major, ttl)
    requires var ce := sd.consumers[ConsumerIndex(sd.consumers, sid)];
      ce.state == FOUND && ce.sessionValid && ce.session == SessionId(clientId, sid, t1)
    ensures HandleOffer(sd, sid, major, ttl, SessionId(clientId, sid, t2), provider, now).1
         == [LostCallback(sid), FoundCallback(sid, provider)]
      <==> !(t1 % TWO_16 == t2 % TWO_16 || ZeroAndOne(SessionHash(clientId, sid, t1), SessionHash(clientId, sid, t2)))
  {
    hide SessionId, SessionHash, FlagResubscribe;
    SessionCollision(clientId, sid, t1, t2);
  }
}

/** The find retries of one search (section 4.4 of the protocol). */
module FindBackoff {
  import opened Words
  import opened SdMessages
  import opened DiscoverySpec
  import opened DiscoveryLog
  import opened Subscriptions

  ghost function Power(base: nat, k: nat): nat {
    if k == 0 then 1 else Power(base, k - 1) * base
  }

  /** I * M^k. */
  ghost function Delay(cfg: SdConfig, k: nat): nat {
    cfg.findInitialDelayMs * Power(cfg.findBackoffMultiplier, k)
  }

  lemma DelayStep(cfg: SdConfig, k: nat)
    requires k > 0 && cfg.findBackoffMultiplier >= 1
    ensures Delay(cfg, k) == Delay(cfg, k - 1) * cfg.findBackoffMultiplier >= Delay(cfg, k - 1)
  {
    Regroup(cfg.findInitialDelayMs, Power(cfg.findBackoffMultiplier, k - 1), cfg.findBackoffMultiplier);
  }

  lemma Regroup(i: nat, p: nat, m: nat)
    requires m >= 1
    ensures i * (p * m) == (i * p) * m >= i * p
  {
  }

  /** Without overflow the loop's product is the exponential of the specification. */
  lemma {:induction false} BackoffIsExponential(cfg: SdConfig, k: nat)
    requires Delay(cfg, k) < TWO_32 && cfg.findBackoffMultiplier >= 1
    ensures Backoff(cfg, k) == Delay(cfg, k)
    decreases k
  {
    if k > 0 {
      hide Delay, Backoff, Wrap32;
      DelayStep(cfg, k);
      BackoffIsExponential(cfg, k - 1);
      BackoffStep(cfg, k);
      NoWrap(Delay(cfg, k));
    }
  }

  lemma BackoffStep(cfg: SdConfig, k: nat)
    requires k > 0
    ensures Backoff(cfg, k) == Wrap32(Backoff(cfg, k - 1) * cfg.findBackoffMultiplier)
  {
    hide Wrap32;
  }

  lemma NoWrap(x: nat)
    requires x < TWO_32
    ensures Wrap32(x) == x
  {
  }

  /** After a send that leaves `retry` sends done, the next one is due at
      now + I * M^retry + j modulo 2^32, with |j| at most the jitter. */
  lemma NextRetryIs(cfg: SdConfig, sid: u16, retry: u8, now: u32) returns (j: int)
    requires cfg.findBackoffMultiplier >= 1 && cfg.findJitterMs <= Delay(cfg, retry) < TWO_32
    ensures 0 - cfg.findJitterMs <= j <= cfg.findJitterMs
    ensures NextRetry(cfg, sid, retry, now) == Wrap32(now + Delay(cfg, retry) + j)
  {
    hide Jitter, Delay;
    j := Jitter(cfg, sid, retry);
    BackoffIsExponential(cfg, retry);
    JitterRange(cfg, sid, retry);
  }

  lemma JitterRange(cfg: SdConfig, sid: u16, retry: u8)
    ensures 0 - cfg.findJitterMs <= Jitter(cfg, sid, retry) <= cfg.findJitterMs
  {
    hide JitterSeed;
  }

  // ------------------------------------------------------------- bounded broadcasts

  function ConsumerOf(sd: Sd, sid: u16): Option<ConsumerEntry> {
    var i := ConsumerIndex(sd.consumers, sid);
    if i < |sd.consumers| then Some(sd.consumers[i]) else None
  }

  /** The find broadcasts an entry may still make. */
  ghost function FindBudget(cfg: SdConfig, sd: Sd, sid: u16): int {
    match ConsumerOf(sd, sid)
    case None => 0
    case Some(ce) => EntryBudget(cfg, ce)
  }

  ghost function EntryBudget(cfg: SdConfig, ce: ConsumerEntry): int {
    if ce.state == SEARCHING then cfg.findRetryCount + 1 - ce.retryCount else 0
  }

  ghost predicate WithinRetries(cfg: SdConfig, sd: Sd, sid: u16) {
    match ConsumerOf(sd, sid)
    case None => true
    case Some(ce) => EntryWithin(cfg, ce)
  }

  ghost predicate EntryWithin(cfg: SdConfig, ce: ConsumerEntry) {
    ce.state == SEARCHING ==> ce.retryCount <= cfg.findRetryCount
  }

  predicate SendsFind(ce: ConsumerEntry, now: u32) {
    ce.state == SEARCHING && TimeAfterOrEq(now, ce.nextRetryMs)
  }

  /** One send costs one of the budget. */
  lemma EntryPass(cfg: SdConfig, ce: ConsumerEntry, now: u32)
    requires EntryWithin(cfg, ce) && cfg.findRetryCount < 255
    ensures var ce' := FindStep(cfg, ce, now).0;
      && EntryWithin(cfg, ce') && ce'.serviceId == ce.serviceId
      && (if SendsFind(ce, now) then 1 else 0) + EntryBudget(cfg, ce') <= EntryBudget(cfg, ce)
  {
    hide TimeAfterOrEq, NextRetry;
  }

  lemma FindSends(cfg: SdConfig, s: seq<ConsumerEntry>, now: u32, sid: u16)
    requires DistinctConsumers(s)
    ensures var i := ConsumerIndex(s, sid);
      |Select(FindsOutput(cfg, s, now), Finds(sid))|
      == if i < |s| && SendsFind(s[i], now) then 1 else 0
  {
    hide TimeAfterOrEq, NextRetry, Select;
    var i := ConsumerIndex(s, sid);
    var t := Finds(sid);
    forall k | 0 <= k < |s| && k != i
      ensures Select(FindStep(cfg, s[k], now).1, t) == []
    {
      assert s[k].serviceId != sid;
      SelectNone(FindStep(cfg, s[k], now).1, t);
    }
    SelectFinds(cfg, s, now, t, i);
    SelectNone([], t);
    if i < |s| {
      SelectPair(Broadcast(FindService(sid)), LostCallback(sid), t);
    }
  }

  lemma FindBudgetStep(cfg: SdConfig, sd: Sd, e: Event, now: u32, sid: u16)
    requires Distinct(sd) && WithinRetries(cfg, sd, sid) && cfg.findRetryCount < 255
    requires !(e.FindCall? && e.sid == sid)
    ensures var (sd', out) := Step(cfg, sd, e, now);
      && Distinct(sd') && WithinRetries(cfg, sd', sid)
      && |Select(out, Finds(sid))| + FindBudget(cfg, sd', sid) <= FindBudget(cfg, sd, sid)
  {
    hide Step, Select;
    StepDistinct(cfg, sd, e, now);
    if e.ProcessFinds? {
      FindPass(cfg, sd, now, sid);
    } else {
      if e.FindCall? {
        OtherFind(cfg, sd, e, now, sid);
      } else {
        NoRetryUsed(cfg, sd, e, now, sid);
      }
      Silent(cfg, sd, e, now, Finds(sid));
    }
  }

  lemma FindPass(cfg: SdConfig, sd: Sd, now: u32, sid: u16)
    requires Distinct(sd) && WithinRetries(cfg, sd, sid) && cfg.findRetryCount < 255
    ensures var (sd', out) := Step(cfg, sd, ProcessFinds, now);
      && WithinRetries(cfg, sd', sid)
      && |Select(out, Finds(sid))| + FindBudget(cfg, sd', sid) <= FindBudget(cfg, sd, sid)
  {
    hide FindStep, SendsFind, EntryWithin, EntryBudget, Select;
    var s := sd.consumers;
    forall k | 0 <= k < |s|
      ensures FindStep(cfg, s[k], now).0.serviceId == s[k].serviceId
    {
      FindKeepsKey(cfg, s[k], now);
    }
    SameIndex(s, FindsStepped(cfg, s, now), sid);
    FindSends(cfg, s, now, sid);
    var i := ConsumerIndex(s, sid);
    if i < |s| {
      EntryPass(cfg, s[i], now);
    }
  }

  lemma FindKeepsKey(cfg: SdConfig, ce: ConsumerEntry, now: u32)
    ensures FindStep(cfg, ce, now).0.serviceId == ce.serviceId
  {
  }

  /** Outside the find pass an entry keeps its retry count or stops searching. */
  lemma NoRetryUsed(cfg: SdConfig, sd: Sd, e: Event, now: u32, sid: u16)
    requires Distinct(sd) && WithinRetries(cfg, sd, sid) && !e.FindCall? && !e.ProcessFinds?
    ensures var sd' := Step(cfg, sd, e, now).0;
      WithinRetries(cfg, sd', sid) && FindBudget(cfg, sd', sid) <= FindBudget(cfg, sd, sid)
  {
    hide Step, Distinct;
    if ConsumerOf(sd, sid).Some? {
      SearchElse(cfg, sd, e, now, sid);
    } else {
      ConsumerKeys(cfg, sd, e, now);
      SameIndex(sd.consumers, Step(cfg, sd, e, now).0.consumers, sid);
    }
  }

  lemma OtherFind(cfg: SdConfig, sd: Sd, e: Event, now: u32, sid: u16)
    requires e.FindCall? && e.sid != sid
    ensures ConsumerOf(Step(cfg, sd, e, now).0, sid) == ConsumerOf(sd, sid)
  {
    var s, s' := sd.consumers, Step(cfg, sd, e, now).0.consumers;
    var i := ConsumerIndex(s, sid);
    if i < |s| {
      assert s'[i] == s[i];
      assert forall k :: 0 <= k < i ==> s'[k].serviceId == s[k].serviceId;
    } else {
      assert forall k :: 0 <= k < |s'| ==> s'[k].serviceId != sid;
    }
  }

  lemma SameIndex(s: seq<ConsumerEntry>, s': seq<ConsumerEntry>, sid: u16)
    requires |s'| == |s| && forall i :: 0 <= i < |s| ==> s'[i].serviceId == s[i].serviceId
    ensures ConsumerIndex(s', sid) == ConsumerIndex(s, sid)
  {
    var i := ConsumerIndex(s, sid);
    assert forall k :: 0 <= k < i ==> s'[k].serviceId != sid;
  }

  ghost predicate NoFindCall(run: seq<Timed>, sid: u16) {
    forall i :: 0 <= i < |run| ==> !(run[i].e.FindCall? && run[i].e.sid == sid)
  }

  lemma {:induction false} FindBudgetRun(cfg: SdConfig, sd: Sd, run: seq<Timed>, sid: u16)
    requires Distinct(sd) && WithinRetries(cfg, sd, sid) && cfg.findRetryCount < 255 && NoFindCall(run, sid)
    ensures |Select(Run(cfg, sd, run).1, Finds(sid))| <= FindBudget(cfg, sd, sid)
    decreases |run|
  {
    hide Step, Distinct, Concerns, ConsumerOf, NextRetry;
    if run == [] {
      assert Select([], Finds(sid)) == [];
    } else {
      var (sd1, out1) := Step(cfg, sd, run[0].e, run[0].now);
      FindBudgetStep(cfg, sd, run[0].e, run[0].now, sid);
      FindBudgetRun(cfg, sd1, run[1..], sid);
      SelectConcat(out1, Run(cfg, sd1, run[1..]).1, Finds(sid));
    }
  }

  /** From any reachable state, one `find` causes at most SdFindRetryCount + 1 find
      broadcasts for its service, however long the run, until `find` is called again. */
  lemma FindsBounded(cfg: SdConfig, before: seq<Timed>, sid: u16, major: u8, now: u32, after: seq<Timed>)
    requires cfg.findRetryCount < 255 && NoFindCall(after, sid)
    requires Find(cfg, Run(cfg, EMPTY, before).0.consumers, sid, major, now).1
    ensures var sd := Step(cfg, Run(cfg, EMPTY, before).0, FindCall(sid, major), now).0;
      |Select(Run(cfg, sd, after).1, Finds(sid))| <= cfg.findRetryCount + 1
  {
    hide Run, Select;
    RunDistinct(cfg, EMPTY, before);
    var sd0 := Run(cfg, EMPTY, before).0;
    StepDistinct(cfg, sd0, FindCall(sid, major), now);
    var sd := Step(cfg, sd0, FindCall(sid, major), now).0;
    var i := ConsumerIndex(sd0.consumers, sid);
    ConsumerIndexIs(sd.consumers, i);
    FindBudgetRun(cfg, sd, after, sid);
  }

  // --------------------------------------------------------- a search, send by send

  /** The times of the find broadcasts for a service on a run. */
  function FindTimes(cfg: SdConfig, sd: Sd, run: seq<Timed>, sid: u16): seq<u32>
    decreases |run|
  {
    if run == [] then []
    else
      var (sd1, out1) := Step(cfg, sd, run[0].e, run[0].now);
      (if Select(out1, Finds(sid)) != [] then [run[0].now] else []) + FindTimes(cfg, sd1, run[1..], sid)
  }

  /** When the next find is due after the sends at `times` of a search started at `start`. */
  function NextDue(cfg: SdConfig, sid: u16, start: u32, times: seq<u32>): u32 {
    if times == [] then start else NextRetry(cfg, sid, |times| % 256, times[|times| - 1])
  }

  /** Every send happened once it was due. */
  ghost predicate SentWhenDue(cfg: SdConfig, sid: u16, start: u32, times: seq<u32>) {
    forall k :: 0 <= k < |times| ==> TimeAfterOrEq(times[k], NextDue(cfg, sid, start, times[..k]))
  }

  /** A search that has sent finds at `times`: while it goes on, the entry's retry count is
      the number of sends (as a byte) and its due time follows from the last. */
  ghost predicate Searched(cfg: SdConfig, sd: Sd, sid: u16, start: u32, times: seq<u32>) {
    && Distinct(sd) && ConsumerOf(sd, sid).Some?
    && SentWhenDue(cfg, sid, start, times)
    && (cfg.findRetryCount < 255 ==> |times| <= cfg.findRetryCount + 1)
    && EntrySearched(cfg, ConsumerOf(sd, sid).value, sid, start, times)
  }

  ghost predicate EntrySearched(cfg: SdConfig, ce: ConsumerEntry, sid: u16, start: u32, times: seq<u32>) {
    ce.state == SEARCHING ==>
      ce.retryCount == |times| % 256 && ce.nextRetryMs == NextDue(cfg, sid, start, times)
      && (cfg.findRetryCount < 255 ==> |times| <= cfg.findRetryCount)
  }

  /** One find pass over the entry: a due search sends, and goes on unless the count is used up. */
  lemma EntrySearchStep(cfg: SdConfig, ce: ConsumerEntry, now: u32, sid: u16, start: u32, times: seq<u32>)
    requires ce.serviceId == sid && EntrySearched(cfg, ce, sid, start, times)
    ensures var ce' := FindStep(cfg, ce, now).0;
      var times' := times + (if SendsFind(ce, now) then [now] else []);
      && EntrySearched(cfg, ce', sid, start, times')
      && (SendsFind(ce, now) ==> TimeAfterOrEq(now, NextDue(cfg, sid, start, times)))
      && (cfg.findRetryCount < 255 && SendsFind(ce, now) ==> |times'| <= cfg.findRetryCount + 1)
      && (ce'.state == SEARCHING <==>
            ce.state == SEARCHING && (cfg.findRetryCount < 255 ==> |times'| <= cfg.findRetryCount))
  {
    hide TimeAfterOrEq, NextRetry;
    if SendsFind(ce, now) {
      NextByte(|times|);
      assert (times + [now])[|times|] == now;
    } else {
      assert times + [] == times;
    }
  }

  lemma NextByte(k: nat)
    ensures (k % 256 + 1) % 256 == (k + 1) % 256
    ensures k < 256 ==> k % 256 == k
  {
  }

  /** The application does not search anew, and no offer of the service arrives. */
  ghost predicate Unanswered(run: seq<Timed>, sid: u16) {
    NoFindCall(run, sid) && forall i :: 0 <= i < |run| ==> !(run[i].e.RxOffer? && run[i].e.sid == sid)
  }

  lemma SentMore(cfg: SdConfig, sid: u16, start: u32, times: seq<u32>, now: u32)
    requires SentWhenDue(cfg, sid, start, times) && TimeAfterOrEq(now, NextDue(cfg, sid, start, times))
    ensures SentWhenDue(cfg, sid, start, times + [now])
  {
    hide TimeAfterOrEq, NextDue;
    var more := times + [now];
    forall k | 0 <= k < |more|
      ensures TimeAfterOrEq(more[k], NextDue(cfg, sid, start, more[..k]))
    {
      assert more[..k] == times[..k];
      if k == |times| {
        assert times[..k] == times;
      }
    }
  }

  /** One operation other than `find` for the service. */
  lemma SearchStep(cfg: SdConfig, sd: Sd, e: Event, now: u32, sid: u16, start: u32, times: seq<u32>)
    requires Searched(cfg, sd, sid, start, times) && !(e.FindCall? && e.sid == sid)
    ensures var (sd', out) := Step(cfg, sd, e, now);
      var times' := times + (if Select(out, Finds(sid)) != [] then [now] else []);
      && Searched(cfg, sd', sid, start, times')
      && |Select(out, Finds(sid))| <= 1
      && (!(e.RxOffer? && e.sid == sid) ==>
            (ConsumerOf(sd', sid).value.state == SEARCHING <==>
              ConsumerOf(sd, sid).value.state == SEARCHING && (cfg.findRetryCount < 255 ==>
                |times'| <= cfg.findRetryCount)))
  {
    hide Step, Select, SentWhenDue, NextDue, EntrySearched;
    DistinctParts(sd);
    StepDistinct(cfg, sd, e, now);
    DistinctWhole(Step(cfg, sd, e, now).0);
    if e.ProcessFinds? {
      SearchPass(cfg, sd, now, sid, start, times);
    } else {
      Silent(cfg, sd, e, now, Finds(sid));
      assert times + [] == times;
      SearchElse(cfg, sd, e, now, sid);
      SearchingFacts(cfg, ConsumerOf(sd, sid).value, sid, start, times);
      StaysSearched(cfg, ConsumerOf(sd, sid).value, ConsumerOf(Step(cfg, sd, e, now).0, sid).value, sid, start, times);
    }
  }

  lemma SearchingFacts(cfg: SdConfig, ce: ConsumerEntry, sid: u16, start: u32, times: seq<u32>)
    requires EntrySearched(cfg, ce, sid, start, times)
    ensures ce.state == SEARCHING && cfg.findRetryCount < 255 ==> |times| <= cfg.findRetryCount
  {
  }

  lemma StaysSearched(cfg: SdConfig, ce: ConsumerEntry, ce': ConsumerEntry, sid: u16, start: u32, times: seq<u32>)
    requires EntrySearched(cfg, ce, sid, start, times)
    requires ce'.state != SEARCHING
      || (ce.state == SEARCHING && ce'.retryCount == ce.retryCount && ce'.nextRetryMs == ce.nextRetryMs)
    ensures EntrySearched(cfg, ce', sid, start, times)
  {
  }

  /** A search is left alone, or over. */
  predicate LeftOrOver(ce: ConsumerEntry, ce': ConsumerEntry) {
    && ce'.serviceId == ce.serviceId
    && (ce'.state != SEARCHING || (ce.state == SEARCHING && ce'.retryCount == ce.retryCount
                                   && ce'.nextRetryMs == ce.nextRetryMs))
  }

  /** One entry outside the find pass and the application's calls of `find`. */
  lemma EntryElse(cfg: SdConfig, sd: Sd, e: Event, now: u32, i: nat)
    requires i < |sd.consumers| && !e.ProcessFinds? && !e.FindCall?
    ensures i < |Step(cfg, sd, e, now).0.consumers|
    ensures LeftOrOver(sd.consumers[i], Step(cfg, sd, e, now).0.consumers[i])
    ensures !(e.RxOffer? && e.sid == sd.consumers[i].serviceId) ==>
      (Step(cfg, sd, e, now).0.consumers[i].state == SEARCHING <==> sd.consumers[i].state == SEARCHING)
  {
    hide TimeAfter, FlagResubscribe, RenewalsStepped, OffersStepped, Offer, StopOffer, SubscribeTo, UnsubscribeFrom,
      HandleAck, Reboot, TtlsOutput, OffersOutput, RenewalsOutput, FindReplies;
  }

  /** Outside the find pass a search is left alone, or ended by an offer. */
  lemma SearchElse(cfg: SdConfig, sd: Sd, e: Event, now: u32, sid: u16)
    requires Distinct(sd) && ConsumerOf(sd, sid).Some? && !e.ProcessFinds? && !(e.FindCall? && e.sid == sid)
    ensures var sd' := Step(cfg, sd, e, now).0;
      && ConsumerOf(sd', sid).Some?
      && var ce, ce' := ConsumerOf(sd, sid).value, ConsumerOf(sd', sid).value;
        && (ce'.state != SEARCHING || (ce.state == SEARCHING && ce'.retryCount == ce.retryCount
                                       && ce'.nextRetryMs == ce.nextRetryMs))
        && (!(e.RxOffer? && e.sid == sid) ==> (ce'.state == SEARCHING <==> ce.state == SEARCHING))
  {
    hide Step, Distinct;
    if e.FindCall? {
      OtherFind(cfg, sd, e, now, sid);
    } else {
      ConsumerKeys(cfg, sd, e, now);
      SameIndex(sd.consumers, Step(cfg, sd, e, now).0.consumers, sid);
      EntryElse(cfg, sd, e, now, ConsumerIndex(sd.consumers, sid));
    }
  }

  lemma SearchPass(cfg: SdConfig, sd: Sd, now: u32, sid: u16, start: u32, times: seq<u32>)
    requires Searched(cfg, sd, sid, start, times)
    ensures var (sd', out) := Step(cfg, sd, ProcessFinds, now);
      var times' := times + (if Select(out, Finds(sid)) != [] then [now] else []);
      && ConsumerOf(sd', sid).Some?
      && SentWhenDue(cfg, sid, start, times')
      && (cfg.findRetryCount < 255 ==> |times'| <= cfg.findRetryCount + 1)
      && EntrySearched(cfg, ConsumerOf(sd', sid).value, sid, start, times')
      && |Select(out, Finds(sid))| <= 1
      && (ConsumerOf(sd', sid).value.state == SEARCHING <==>
            ConsumerOf(sd, sid).value.state == SEARCHING && (cfg.findRetryCount < 255 ==>
              |times'| <= cfg.findRetryCount))
  {
    hide FindStep, SendsFind, EntrySearched, SentWhenDue, NextDue, TimeAfterOrEq, Select;
    var s := sd.consumers;
    forall k | 0 <= k < |s|
      ensures FindStep(cfg, s[k], now).0.serviceId == s[k].serviceId
    {
      FindKeepsKey(cfg, s[k], now);
    }
    SameIndex(s, FindsStepped(cfg, s, now), sid);
    FindSends(cfg, s, now, sid);
    var i := ConsumerIndex(s, sid);
    EntrySearchStep(cfg, s[i], now, sid, start, times);
    if SendsFind(s[i], now) {
      SentMore(cfg, sid, start, times, now);
    } else {
      assert times + [] == times;
    }
  }

  lemma {:induction false} SearchRun(cfg: SdConfig, sd: Sd, run: seq<Timed>, sid: u16, start: u32, times: seq<u32>)
    requires Searched(cfg, sd, sid, start, times) && NoFindCall(run, sid)
    ensures var sd' := Run(cfg, sd, run).0;
      var times' := times + FindTimes(cfg, sd, run, sid);
      && Searched(cfg, sd', sid, start, times')
      && |FindTimes(cfg, sd, run, sid)| == |Select(Run(cfg, sd, run).1, Finds(sid))|
      && (Unanswered(run, sid) && ConsumerOf(sd, sid).value.state == SEARCHING ==>
            (ConsumerOf(sd', sid).value.state == SEARCHING <==>
              (cfg.findRetryCount < 255 ==> |times'| <= cfg.findRetryCount)))
    decreases |run|
  {
    hide Step, Concerns, ConsumerOf, Searched;
    if run == [] {
      assert times + [] == times;
      SearchedNow(cfg, sd, sid, start, times);
      assert Select([], Finds(sid)) == [];
    } else {
      var (sd1, out1) := Step(cfg, sd, run[0].e, run[0].now);
      SearchStep(cfg, sd, run[0].e, run[0].now, sid, start, times);
      var first := if Select(out1, Finds(sid)) != [] then [run[0].now] else [];
      SearchRun(cfg, sd1, run[1..], sid, start, times + first);
      StoppedStays(cfg, sd1, run[1..], sid, start, times + first);
      assert times + (first + FindTimes(cfg, sd1, run[1..], sid)) == (times + first)
        + FindTimes(cfg, sd1, run[1..], sid);
      SelectConcat(out1, Run(cfg, sd1, run[1..]).1, Finds(sid));
    }
  }

  lemma SearchedNow(cfg: SdConfig, sd: Sd, sid: u16, start: u32, times: seq<u32>)
    requires Searched(cfg, sd, sid, start, times)
    ensures Distinct(sd) && ConsumerOf(sd, sid).Some?
    ensures ConsumerOf(sd, sid).value.state == SEARCHING && cfg.findRetryCount < 255 ==> |times| <= cfg.findRetryCount
  {
  }

  /** A search that is over does not begin again by itself. */
  lemma {:induction false} StoppedStays(cfg: SdConfig, sd: Sd, run: seq<Timed>, sid: u16, start: u32, times: seq<u32>)
    requires Searched(cfg, sd, sid, start, times) && NoFindCall(run, sid)
    ensures ConsumerOf(sd, sid).Some? && ConsumerOf(Run(cfg, sd, run).0, sid).Some?
    ensures ConsumerOf(sd, sid).value.state != SEARCHING ==>
      ConsumerOf(Run(cfg, sd, run).0, sid).value.state != SEARCHING
    decreases |run|
  {
    hide Step, Select, ConsumerOf, Searched;
    SearchedNow(cfg, sd, sid, start, times);
    if run != [] {
      var (sd1, out1) := Step(cfg, sd, run[0].e, run[0].now);
      SearchStep(cfg, sd, run[0].e, run[0].now, sid, start, times);
      NotAgain(cfg, sd, run[0].e, run[0].now, sid);
      StoppedStays(cfg, sd1, run[1..], sid, start, times
        + (if Select(out1, Finds(sid)) != [] then [run[0].now] else []));
    }
  }

  lemma NotAgain(cfg: SdConfig, sd: Sd, e: Event, now: u32, sid: u16)
    requires Distinct(sd) && ConsumerOf(sd, sid).Some? && !(e.FindCall? && e.sid == sid)
    ensures var sd' := Step(cfg, sd, e, now).0;
      ConsumerOf(sd', sid).Some? && (ConsumerOf(sd, sid).value.state != SEARCHING ==>
                                     ConsumerOf(sd', sid).value.state != SEARCHING)
  {
    hide Step, NextRetry, TimeAfterOrEq;
    if e.ProcessFinds? {
      PassKeepsStopped(cfg, sd, now, sid);
    } else {
      SearchElse(cfg, sd, e, now, sid);
    }
  }

  lemma PassKeepsStopped(cfg: SdConfig, sd: Sd, now: u32, sid: u16)
    requires ConsumerOf(sd, sid).Some?
    ensures var sd' := Step(cfg, sd, ProcessFinds, now).0;
      ConsumerOf(sd', sid).Some? && (ConsumerOf(sd, sid).value.state != SEARCHING ==>
                                     ConsumerOf(sd', sid).value.state != SEARCHING)
  {
    hide NextRetry, TimeAfterOrEq;
    var s := sd.consumers;
    forall k | 0 <= k < |s|
      ensures FindStep(cfg, s[k], now).0.serviceId == s[k].serviceId
    {
    }
    SameIndex(s, FindsStepped(cfg, s, now), sid);
  }

  lemma SearchBegins(cfg: SdConfig, sd: Sd, sid: u16, major: u8, now: u32)
    requires Distinct(sd) && Find(cfg, sd.consumers, sid, major, now).1
    ensures var sd' := Step(cfg, sd, FindCall(sid, major), now).0;
      Searched(cfg, sd', sid, now, []) && ConsumerOf(sd', sid).value.state == SEARCHING
  {
    hide TimeAfterOrEq;
    StepDistinct(cfg, sd, FindCall(sid, major), now);
    var sd' := Step(cfg, sd, FindCall(sid, major), now).0;
    ConsumerIndexIs(sd'.consumers, ConsumerIndex(sd.consumers, sid));
  }

  /** From any reachable state, `find` and any run after it: the broadcasts happen when they
      are due, and while the search goes on after k of them the entry has retry count k and
      the due time that follows from the k-th. With a count below 255 the search is over
      after SdFindRetryCount + 1 broadcasts. */
  lemma SearchSchedule(cfg: SdConfig, before: seq<Timed>, sid: u16, major: u8, now: u32, after: seq<Timed>)
    requires NoFindCall(after, sid) && Find(cfg, Run(cfg, EMPTY, before).0.consumers, sid, major, now).1
    ensures var sd := Step(cfg, Run(cfg, EMPTY, before).0, FindCall(sid, major), now).0;
      var times := FindTimes(cfg, sd, after, sid);
      && |times| == |Select(Run(cfg, sd, after).1, Finds(sid))|
      && Searched(cfg, Run(cfg, sd, after).0, sid, now, times)
      && (cfg.findRetryCount < 255 && |times| == cfg.findRetryCount + 1 ==>
          ConsumerOf(Run(cfg, sd, after).0, sid).value.state != SEARCHING)
  {
    hide Run, Select, Step, Find, FindTimes, ConsumerOf;
    RunDistinct(cfg, EMPTY, before);
    var sd0 := Run(cfg, EMPTY, before).0;
    SearchBegins(cfg, sd0, sid, major, now);
    var sd := Step(cfg, sd0, FindCall(sid, major), now).0;
    SearchRun(cfg, sd, after, sid, now, []);
    assert [] + FindTimes(cfg, sd, after, sid) == FindTimes(cfg, sd, after, sid);
  }

  /** In numbers: after the k-th broadcast of a search that goes on, the next is due at the
      time of the k-th + I * M^k + j modulo 2^32, with |j| at most the jitter. */
  lemma SearchTiming(cfg: SdConfig, before: seq<Timed>, sid: u16, major: u8, now: u32, after: seq<Timed>)
      returns (j: int)
    requires NoFindCall(after, sid) && Find(cfg, Run(cfg, EMPTY, before).0.consumers, sid, major, now).1
    requires var sd := Step(cfg, Run(cfg, EMPTY, before).0, FindCall(sid, major), now).0;
      var k := |FindTimes(cfg, sd, after, sid)|;
      && 0 < k && cfg.findRetryCount < 255
      && ConsumerOf(Run(cfg, sd, after).0, sid).Some? && ConsumerOf(Run(cfg, sd, after).0, sid).value.state == SEARCHING
      && cfg.findBackoffMultiplier >= 1 && cfg.findJitterMs <= Delay(cfg, k) < TWO_32
    ensures 0 - cfg.findJitterMs <= j <= cfg.findJitterMs
    ensures var sd := Step(cfg, Run(cfg, EMPTY, before).0, FindCall(sid, major), now).0;
      var times := FindTimes(cfg, sd, after, sid);
      var ce := ConsumerOf(Run(cfg, sd, after).0, sid).value;
      && ce.retryCount == |times|
      && ce.nextRetryMs == Wrap32(times[|times| - 1] + Delay(cfg, |times|) + j)
  {
    hide Run, Select, Step, Find, FindTimes, ConsumerOf, Delay, NextRetry, SentWhenDue;
    SearchSchedule(cfg, before, sid, major, now, after);
    var sd := Step(cfg, Run(cfg, EMPTY, before).0, FindCall(sid, major), now).0;
    var times := FindTimes(cfg, sd, after, sid);
    var k := |times|;
    SearchingFacts(cfg, ConsumerOf(Run(cfg, sd, after).0, sid).value, sid, now, times);
    NextByte(k);
    j := NextRetryIs(cfg, sid, k, times[k - 1]);
  }

  /** On every run on which no offer answers, the search goes on exactly as long as no more
      than SdFindRetryCount broadcasts were made; with the largest count, 255, it never ends. */
  lemma SearchEnds(cfg: SdConfig, before: seq<Timed>, sid: u16, major: u8, now: u32, after: seq<Timed>)
    requires Unanswered(after, sid) && Find(cfg, Run(cfg, EMPTY, before).0.consumers, sid, major, now).1
    ensures var sd := Step(cfg, Run(cfg, EMPTY, before).0, FindCall(sid, major), now).0;
      var k := |Select(Run(cfg, sd, after).1, Finds(sid))|;
      && ConsumerOf(Run(cfg, sd, after).0, sid).Some?
      && (ConsumerOf(Run(cfg, sd, after).0, sid).value.state == SEARCHING <==>
          cfg.findRetryCount == 255 || k <= cfg.findRetryCount)
  {
    hide Run, Select, Step, Find, FindTimes, ConsumerOf, Searched;
    RunDistinct(cfg, EMPTY, before);
    var sd0 := Run(cfg, EMPTY, before).0;
    SearchBegins(cfg, sd0, sid, major, now);
    var sd := Step(cfg, sd0, FindCall(sid, major), now).0;
    SearchRun(cfg, sd, after, sid, now, []);
    SearchedNow(cfg, Run(cfg, sd, after).0, sid, now, [] + FindTimes(cfg, sd, after, sid));
    assert |[] + FindTimes(cfg, sd, after, sid)| == |FindTimes(cfg, sd, after, sid)|;
  }

  lemma {:induction false} RunSnoc(cfg: SdConfig, sd: Sd, run: seq<Timed>, e: Timed)
    ensures var (sd1, log1) := Run(cfg, sd, run);
      var (sd2, out) := Step(cfg, sd1, e.e, e.now);
      Run(cfg, sd, run + [e]) == (sd2, log1 + out)
    decreases |run|
  {
    hide Step;
    if run == [] {
      var (sd1, out) := Step(cfg, sd, e.e, e.now);
      assert run + [e] == [e] && [e][1..] == run;
      assert Run(cfg, sd1, run) == (sd1, []);
      assert out + [] == out && [] + out == out;
    } else {
      var (sd1, out1) := Step(cfg, sd, run[0].e, run[0].now);
      assert (run + [e])[1..] == run[1..] + [e] && (run + [e])[0] == run[0];
      RunSnoc(cfg, sd1, run[1..], e);
      var (sd2, log) := Run(cfg, sd1, run[1..]);
      var out := Step(cfg, sd2, e.e, e.now).1;
      assert out1 + (log + out) == (out1 + log) + out;
    }
  }

  /** With the count 255 a device that searches one service broadcasts as often as one likes:
      from empty tables there is a run with any number of broadcasts after one `find`. */
  lemma {:induction false} SearchesForEver(cfg: SdConfig, sid: u16, major: u8, now: u32, n: nat)
      returns (run: seq<Timed>)
    requires cfg.findRetryCount == 255 && cfg.maxKnownServices > 0
    ensures var sd := Step(cfg, EMPTY, FindCall(sid, major), now).0;
      && (forall i :: 0 <= i < |run| ==> run[i].e.ProcessFinds?)
      && |Select(Run(cfg, sd, run).1, Finds(sid))| == n
      && ConsumerOf(Run(cfg, sd, run).0, sid).Some? && ConsumerOf(Run(cfg, sd, run).0, sid).value.state == SEARCHING
    decreases n
  {
    hide Select, Step, Find, ConsumerOf, FindTimes, Searched;
    run := [];
    var sd := Step(cfg, EMPTY, FindCall(sid, major), now).0;
    FindFits(cfg, sid, major, now);
    assert Run(cfg, EMPTY, []).0 == EMPTY;
    if n == 0 {
      NothingSelected(sid);
      SearchEnds(cfg, [], sid, major, now, run);
    } else {
      run := SearchesForEver(cfg, sid, major, now, n - 1);
      SearchSchedule(cfg, [], sid, major, now, run);
      var (sd1, log1) := Run(cfg, sd, run);
      SearchedNow(cfg, sd1, sid, now, FindTimes(cfg, sd, run, sid));
      var e := Timed(ProcessFinds, ConsumerOf(sd1, sid).value.nextRetryMs);
      DueSends(cfg, sd1, sid);
      RunSnoc(cfg, sd, run, e);
      SelectConcat(log1, Step(cfg, sd1, e.e, e.now).1, Finds(sid));
      run := run + [e];
      SearchEnds(cfg, [], sid, major, now, run);
    }
  }

  lemma FindFits(cfg: SdConfig, sid: u16, major: u8, now: u32)
    requires cfg.maxKnownServices > 0
    ensures Find(cfg, EMPTY.consumers, sid, major, now).1
  {
  }

  lemma NothingSelected(sid: u16)
    ensures Select([], Finds(sid)) == []
  {
  }

  lemma DueSends(cfg: SdConfig, sd: Sd, sid: u16)
    requires Distinct(sd) && ConsumerOf(sd, sid).Some? && ConsumerOf(sd, sid).value.state == SEARCHING
    ensures |Select(Step(cfg, sd, ProcessFinds, ConsumerOf(sd, sid).value.nextRetryMs).1, Finds(sid))| == 1
  {
    hide Select;
    FindSends(cfg, sd.consumers, ConsumerOf(sd, sid).value.nextRetryMs, sid);
  }
}
