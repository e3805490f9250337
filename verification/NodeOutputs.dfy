/** Where the outputs of each pass come from, and what a whole housekeeping phase emits. */
module NodeOutputs {
  import opened Words
  import opened Wire
  import opened SdMessages
  import opened DiscoverySpec
  import opened Frame
  import opened Node
  import opened NodeEffects
  import EM = EventManager
  import RT = RequestTracker

  // ------------------------------------------------------------- sources of outputs

  lemma {:induction false} OffersFrom(s: seq<ProviderEntry>, localAddr: Address, now: u32, o: Output)
    requires o in OffersOutput(s, localAddr, now)
    ensures exists i :: 0 <= i < |s| && o == Broadcast(OfferOf(s[i], localAddr))
    decreases |s|
  {
    hide OfferDue;
    var n := |s| - 1;
    if o in OffersOutput(s[..n], localAddr, now) {
      OffersFrom(s[..n], localAddr, now, o);
      var i :| 0 <= i < n && o == Broadcast(OfferOf(s[..n][i], localAddr));
      assert o == Broadcast(OfferOf(s[i], localAddr));
    } else {
      assert o == Broadcast(OfferOf(s[n], localAddr));
    }
  }

  lemma {:induction false} OfferAmong(s: seq<ProviderEntry>, localAddr: Address, now: u32, i: nat)
    requires i < |s| && OfferDue(s[i], now)
    ensures Broadcast(OfferOf(s[i], localAddr)) in OffersOutput(s, localAddr, now)
    decreases |s|
  {
    hide OfferDue;
    if i < |s| - 1 {
      OfferAmong(s[..|s| - 1], localAddr, now, i);
    }
  }

  lemma {:induction false} RepliesFrom(s: seq<ProviderEntry>, localAddr: Address, sid: u16, source: Address, o: Output)
    requires o in FindReplies(s, localAddr, sid, source)
    ensures exists i :: 0 <= i < |s| && o == Unicast(source, OfferOf(s[i], localAddr))
    decreases |s|
  {
    var n := |s| - 1;
    if o in FindReplies(s[..n], localAddr, sid, source) {
      RepliesFrom(s[..n], localAddr, sid, source, o);
      var i :| 0 <= i < n && o == Unicast(source, OfferOf(s[..n][i], localAddr));
      assert o == Unicast(source, OfferOf(s[i], localAddr));
    } else {
      assert o == Unicast(source, OfferOf(s[n], localAddr));
    }
  }

  lemma {:induction false} RenewalsFrom(cfg: SdConfig, cs: seq<ConsumerEntry>, s: seq<SubTracker>, now: u32, o: Output)
    requires o in RenewalsOutput(cfg, cs, s, now)
    ensures exists i :: 0 <= i < |s| && o in RenewStep(cfg, cs, s[i], now).1
    decreases |s|
  {
    hide RenewStep;
    var n := |s| - 1;
    if o in RenewalsOutput(cfg, cs, s[..n], now) {
      RenewalsFrom(cfg, cs, s[..n], now, o);
      var i :| 0 <= i < n && o in RenewStep(cfg, cs, s[..n][i], now).1;
      assert o in RenewStep(cfg, cs, s[i], now).1;
    } else {
      assert o in RenewStep(cfg, cs, s[n], now).1;
    }
  }

  lemma {:induction false} RenewalAmong(cfg: SdConfig, cs: seq<ConsumerEntry>, s: seq<SubTracker>, now: u32, i: nat,
                                        o: Output)
    requires i < |s| && o in RenewStep(cfg, cs, s[i], now).1
    ensures o in RenewalsOutput(cfg, cs, s, now)
    decreases |s|
  {
    hide RenewStep;
    if i < |s| - 1 {
      RenewalAmong(cfg, cs, s[..|s| - 1], now, i, o);
    }
  }

  lemma {:induction false} TtlsFrom(s: seq<ConsumerEntry>, now: u32, o: Output)
    requires o in TtlsOutput(s, now)
    ensures exists i ::
      0 <= i < |s| && TtlExpired(s[i], now) && (o == PeerExpired(s[i].addr) || o == LostCallback(s[i].serviceId))
    decreases |s|
  {
    hide TtlExpired;
    var n := |s| - 1;
    if o in TtlsOutput(s[..n], now) {
      TtlsFrom(s[..n], now, o);
      var i :| 0 <= i < n && TtlExpired(s[..n][i], now)
        && (o == PeerExpired(s[..n][i].addr) || o == LostCallback(s[..n][i].serviceId));
      assert TtlExpired(s[i], now);
    } else {
      assert TtlExpired(s[n], now);
    }
  }

  predicate SaysFinding(ce: ConsumerEntry, o: Output) {
    ce.state == SEARCHING && (o == Broadcast(FindService(ce.serviceId)) || o == LostCallback(ce.serviceId))
  }

  lemma {:induction false} FindsFrom(cfg: SdConfig, s: seq<ConsumerEntry>, now: u32, o: Output)
    requires o in FindsOutput(cfg, s, now)
    ensures exists i :: 0 <= i < |s| && SaysFinding(s[i], o)
    decreases |s|
  {
    hide NextRetry, TimeAfterOrEq;
    var n := |s| - 1;
    if o in FindsOutput(cfg, s[..n], now) {
      FindsFrom(cfg, s[..n], now, o);
      var i :| 0 <= i < n && SaysFinding(s[..n][i], o);
      assert SaysFinding(s[i], o);
    } else {
      assert SaysFinding(s[n], o);
    }
  }

  // ----------------------------------------------------------- a housekeeping phase

  /** The four discovery passes in order. */
  function FourPasses(cfg: SdConfig, sd: Sd, now: u32): (Sd, seq<Output>) {
    var (sd1, o1) := Step(cfg, sd, ProcessOffers, now);
    var (sd2, o2) := Step(cfg, sd1, ProcessRenewals, now);
    var (sd3, o3) := Step(cfg, sd2, ProcessTtls, now);
    var (sd4, o4) := Step(cfg, sd3, ProcessFinds, now);
    (sd4, o1 + o2 + o3 + o4)
  }

  /** `n'` comes from `n` by sending the messages in `out` and telling the application
      about them, and otherwise only about completed requests. */
  ghost predicate Emits(cfg: NodeConfig, n: NodeState, n': NodeState, out: seq<Output>) {
    && n.wire <= n'.wire && n.app <= n'.app
    && (forall i :: |n.wire| <= i < |n'.wire| ==> SentFrom(cfg, n'.wire[i], out))
    && (forall k :: 0 <= k < |out| && Sendable(cfg, out[k]) ==> Reached(cfg, n, n', out[k]))
    && (forall i :: |n.app| <= i < |n'.app| ==> n'.app[i].Discovered? ==> n'.app[i].output in out)
  }

  ghost predicate SentFrom(cfg: NodeConfig, p: Packet, out: seq<Output>) {
    exists k :: 0 <= k < |out| && Carries(cfg, p, out[k])
  }

  ghost predicate Reached(cfg: NodeConfig, n: NodeState, n': NodeState, o: Output) {
    exists i :: |n.wire| <= i < |n'.wire| && Carries(cfg, n'.wire[i], o)
  }

  lemma EmitsTrans(cfg: NodeConfig, n: NodeState, n1: NodeState, n2: NodeState, out1: seq<Output>, out2: seq<Output>)
    requires Emits(cfg, n, n1, out1) && Emits(cfg, n1, n2, out2)
    ensures Emits(cfg, n, n2, out1 + out2)
  {
    hide Carries, Sendable;
    var out := out1 + out2;
    forall i | |n.wire| <= i < |n2.wire|
      ensures SentFrom(cfg, n2.wire[i], out)
    {
      if i < |n1.wire| {
        assert n2.wire[i] == n1.wire[i] && SentFrom(cfg, n1.wire[i], out1);
        var k :| 0 <= k < |out1| && Carries(cfg, n1.wire[i], out1[k]);
        assert out[k] == out1[k];
      } else {
        assert SentFrom(cfg, n2.wire[i], out2);
        var k :| 0 <= k < |out2| && Carries(cfg, n2.wire[i], out2[k]);
        assert out[|out1| + k] == out2[k];
      }
    }
    forall k | 0 <= k < |out| && Sendable(cfg, out[k])
      ensures Reached(cfg, n, n2, out[k])
    {
      if k < |out1| {
        assert Reached(cfg, n, n1, out1[k]);
        var i :| |n.wire| <= i < |n1.wire| && Carries(cfg, n1.wire[i], out1[k]);
        assert n2.wire[i] == n1.wire[i];
      } else {
        assert Reached(cfg, n1, n2, out2[k - |out1|]);
      }
    }
    forall i | |n.app| <= i < |n2.app|
      ensures n2.app[i].Discovered? ==> n2.app[i].output in out
    {
      if i < |n1.app| {
        assert n2.app[i] == n1.app[i];
      }
    }
  }

  lemma CarriedEmits(cfg: NodeConfig, n: NodeState, n': NodeState, out: seq<Output>)
    requires Carried(cfg, n, n', out)
    ensures Emits(cfg, n, n', out)
  {
    hide Carries, Sendable;
  }

  lemma SdStepEmits(cfg: NodeConfig, n: NodeState, e: Event, now: u32)
    ensures var n' := SdStep(cfg, n, e, now);
      && n'.sd == Step(cfg.sd, n.sd, e, now).0 && n'.events == n.events
      && Emits(cfg, n, n', Step(cfg.sd, n.sd, e, now).1)
  {
    hide Step, SdStep, Carries, Sendable, SentFrom, Reached;
    SdStepCarries(cfg, n, e, now);
    var n' := SdStep(cfg, n, e, now);
    var base := n.(sd := n'.sd);
    CarriedEmits(cfg, base, n', Step(cfg.sd, n.sd, e, now).1);
    EmitsBase(cfg, base, n, n', Step(cfg.sd, n.sd, e, now).1);
  }

  /** Only the wire and the application log of the starting point matter. */
  lemma EmitsBase(cfg: NodeConfig, a: NodeState, b: NodeState, n': NodeState, out: seq<Output>)
    requires a.wire == b.wire && a.app == b.app && Emits(cfg, a, n', out)
    ensures Emits(cfg, b, n', out)
  {
    hide Carries, Sendable, SentFrom;
    forall k | 0 <= k < |out| && Sendable(cfg, out[k])
      ensures Reached(cfg, b, n', out[k])
    {
      assert Reached(cfg, a, n', out[k]);
    }
  }

  lemma EvictEmits(cfg: NodeConfig, n: NodeState, now: u32)
    ensures Emits(cfg, n, EvictRequests(n, now), [])
    ensures EvictRequests(n, now).sd == n.sd && EvictRequests(n, now).events == n.events
  {
    CompletionsOnly(RT.EvictFrom(n.requests, now).1);
  }

  /** A housekeeping phase runs the four passes over the discovery tables, filters the
      subscribers, and emits exactly what the passes hand out. */
  lemma HousekeepingEmits(cfg: NodeConfig, n: NodeState, now: u32)
    ensures var n' := Housekeeping(cfg, n, now);
      && n'.sd == FourPasses(cfg.sd, n.sd, now).0
      && n'.events == EM.Evict(n.events, now)
      && Emits(cfg, n, n', FourPasses(cfg.sd, n.sd, now).1)
  {
    hide Step, SdStep, Emits, EvictRequests;
    var n1 := EvictRequests(n, now);
    var n2 := n1.(events := EM.Evict(n1.events, now));
    var n3 := SdStep(cfg, n2, ProcessOffers, now);
    var n4 := SdStep(cfg, n3, ProcessRenewals, now);
    var n5 := SdStep(cfg, n4, ProcessTtls, now);
    var n6 := SdStep(cfg, n5, ProcessFinds, now);
    var o1, o2, o3, o4 := Step(cfg.sd, n2.sd, ProcessOffers, now).1, Step(cfg.sd, n3.sd, ProcessRenewals, now).1,
      Step(cfg.sd, n4.sd, ProcessTtls, now).1, Step(cfg.sd, n5.sd, ProcessFinds, now).1;
    EvictEmits(cfg, n, now);
    NoPackets(cfg, n, n1, n2);
    SdStepEmits(cfg, n2, ProcessOffers, now);
    SdStepEmits(cfg, n3, ProcessRenewals, now);
    SdStepEmits(cfg, n4, ProcessTtls, now);
    SdStepEmits(cfg, n5, ProcessFinds, now);
    EmitsTrans(cfg, n, n2, n3, [], o1);
    assert [] + o1 == o1;
    EmitsTrans(cfg, n, n3, n4, o1, o2);
    EmitsTrans(cfg, n, n4, n5, o1 + o2, o3);
    EmitsTrans(cfg, n, n5, n6, o1 + o2 + o3, o4);
  }

  lemma NoPackets(cfg: NodeConfig, n: NodeState, n1: NodeState, n2: NodeState)
    requires Emits(cfg, n, n1, []) && n2.wire == n1.wire && n2.app == n1.app
    ensures Emits(cfg, n, n2, [])
  {
    hide Carries;
  }
}
