/** What reaches whom: the service-discovery message a device sees in a frame, what it does
about it, and what it sends. */
module NodeEffects {
  import opened Words
  import opened Wire
  import opened SdMessages
  import opened DiscoverySpec
  import opened Frame
  import opened Node
  import Crc16
  import Hmac
  import RT = RequestTracker

  /** A service-discovery message as its receiver sees it. */
  datatype SdSeen = SdSeen(client: u16, result: u8, m: SdMessage)

  /** The message a device acts on when it receives `d`, if any. */
  function Seen(cfg: NodeConfig, setup: Setup, source: Address, d: Bytes): Option<SdSeen> {
    PassedFits(cfg.maxPayloadSize, d);
    match CheckFrame(cfg.maxPayloadSize, d)
    case Rejected(_) => None
    case Passed(h) =>
      if h.serviceId != SD_SERVICE_ID || !Authentic(setup, source, h, d) then None
      else match ParsePayload(h.methodEventId, PayloadOf(h, d), cfg.addressSize)
        case None => None
        case Some(m) => Some(SdSeen(h.clientId, h.returnCode, m))
  }

  /** The header of the frame does not address service discovery. */
  predicate NotDiscovery(d: Bytes) {
    |d| < HEADER_SIZE || ParseHeader(d).serviceId != SD_SERVICE_ID
  }

  lemma NotDiscoveryUnseen(cfg: NodeConfig, setup: Setup, source: Address, d: Bytes)
    requires NotDiscovery(d)
    ensures Seen(cfg, setup, source, d) == None
  {
    PassedFits(cfg.maxPayloadSize, d);
  }

  // -------------------------------------------------- a discovery frame arrives intact

  /** Every device sees exactly the message in a discovery frame whose sender has a nonzero
      client identifier; from client identifier zero it sees nothing. */
  lemma SdFrameSeen(cfg: NodeConfig, setup: Setup, source: Address, client: u16, m: SdMessage, result: u8, sequence: u8)
    requires ShortAddress(m) && |Payload(m)| <= cfg.maxPayloadSize
      && (m.OfferService? ==> |m.provider| == cfg.addressSize)
    ensures Seen(cfg, setup, source, SdFrame(client, m, result, sequence)) ==
      if client == 0 then None else Some(SdSeen(client, result, m))
  {
    hide HeaderBytes, ParseHeader, Crc16.Crc, Crc16.HighByte, Crc16.LowByte, Payload, ParsePayload;
    var h := SdHeader(client, m, result, sequence);
    var body := SdBytes(client, m, result, sequence);
    var d := Crc16.Sealed(body);
    MethodIds(m);
    Crc16.SealedIsValid(body);
    assert d == HeaderBytes(h) + (Payload(m) + d[|body|..]);
    HeaderRoundTrip(h, Payload(m) + d[|body|..]);
    assert PayloadOf(h, d) == Payload(m);
    PayloadRoundTrip(m, cfg.addressSize);
  }

  lemma MethodIds(m: SdMessage)
    ensures 1 <= MethodOf(m) <= 5
  {
  }

  // ------------------------------------------------------ what a device does with it

  /** Acting on a frame is acting on the message seen in it; a frame in which no message is
      seen leaves discovery and subscriptions alone. */
  lemma ReceiveIsHandle(cfg: NodeConfig, setup: Setup, n: NodeState, source: Address, d: Bytes, now: u32)
    ensures var x := Seen(cfg, setup, source, d);
      var n' := Receive(cfg, setup, n, source, d, now);
      && (x.Some? ==> n' == HandleMessage(cfg, n, source, x.value.client, x.value.result, x.value.m, now))
      && (x.None? ==> n'.sd == n.sd && n'.events == n.events && n'.sdSeq == n.sdSeq && Elsewhere(n, n'))
  {
    hide CheckFrame, HandleMessage, Authentic, HandleRequest, ParsePayload;
    PassedFits(cfg.maxPayloadSize, d);
    if CheckFrame(cfg.maxPayloadSize, d).Passed? {
      var h := CheckFrame(cfg.maxPayloadSize, d).header;
      var (n1, goesOn) := SequenceCheck(cfg, n, source, h);
      if goesOn && Authentic(setup, source, h, d) && h.serviceId != SD_SERVICE_ID {
        DispatchElsewhere(cfg, setup, n1, source, h, PayloadOf(h, d), now);
      }
    }
  }

  /** Anything sent is not a discovery frame, anything told the application is not a
      discovery event. */
  ghost predicate Elsewhere(n: NodeState, n': NodeState) {
    && n.wire <= n'.wire && n.app <= n'.app
    && (forall i :: |n.wire| <= i < |n'.wire| ==> NotDiscovery(n'.wire[i].frame))
    && (forall i :: |n.app| <= i < |n'.app| ==> !n'.app[i].Discovered?)
  }

  lemma DispatchElsewhere(cfg: NodeConfig, setup: Setup, n: NodeState, source: Address, h: Header, payload: Bytes,
                          now: u32)
    requires h.serviceId != SD_SERVICE_ID
    ensures var n' := Dispatch(cfg, setup, n, source, h, payload, now);
      n'.sd == n.sd && n'.events == n.events && n'.sdSeq == n.sdSeq && Elsewhere(n, n')
  {
    hide Build, Answer, NotDiscovery;
    if h.messageType == REQUEST {
      var (rc, response, invoked) := Answer(cfg, setup, h, payload);
      var auth := Hmac.Lookup(setup.keys, source).Some?;
      BuiltElsewhere(cfg.maxPayloadSize, setup.keys, source, ResponseHeader(h, rc, auth, n.txSeq, |response|),
                     response, auth);
    } else {
      CompletionsOnly(RT.CompleteIn(n.requests, h.requestId, h.returnCode, payload).1);
    }
  }

  lemma BuiltElsewhere(maxPayload: nat, keys: seq<Hmac.KeyEntry>, peer: Address, h: Header, payload: Bytes, auth: bool)
    requires h.serviceId != SD_SERVICE_ID
    ensures NotDiscovery(Build(maxPayload, keys, peer, h, payload, auth))
  {
    hide HeaderBytes, ParseHeader, Crc16.Crc, Crc16.HighByte, Crc16.LowByte, TagBytes;
    if |payload| <= maxPayload {
      var body := HeaderBytes(h) + payload + TagBytes(keys, peer, h, payload, auth);
      var d := Crc16.Sealed(body);
      assert d == HeaderBytes(h) + (payload + TagBytes(keys, peer, h, payload, auth) + d[|body|..]);
      HeaderRoundTrip(h, payload + TagBytes(keys, peer, h, payload, auth) + d[|body|..]);
    }
  }

  lemma {:induction false} CompletionsOnly(done: seq<RT.Completion>)
    ensures forall i :: 0 <= i < |Completions(done)| ==> Completions(done)[i].RequestDone?
    decreases |done|
  {
    if done != [] {
      CompletionsOnly(done[..|done| - 1]);
    }
  }

  // --------------------------------------------------------------- carrying outputs

  ghost predicate AlwaysUp(cfg: NodeConfig) {
    forall k: nat :: cfg.linkUp(k)
  }

  /** `p` is the attempt to send the message of output `o`. */
  ghost predicate Carries(cfg: NodeConfig, p: Packet, o: Output) {
    && (o.Broadcast? || o.Unicast?)
    && (AlwaysUp(cfg) ==> p.sent)
    && ShortAddress(o.msg)
    && p.dest == (if o.Broadcast? then None else Some(o.dest))
    && (exists s: u8 :: p.frame == SdFrame(cfg.sd.clientId, o.msg, 0, s))
  }

  /** The message of an output is short enough to be sent. */
  predicate Sendable(cfg: NodeConfig, o: Output) {
    (o.Broadcast? || o.Unicast?) && ShortAddress(o.msg)
      && HEADER_SIZE + |Payload(o.msg)| + CRC_SIZE <= MaxMessageSize(cfg)
  }

  /** Carrying outputs out touches only the sequence peers, the counters, the wire and the
      application log; each new packet carries an output, each sendable output has one. */
  ghost predicate Carried(cfg: NodeConfig, n: NodeState, n': NodeState, out: seq<Output>) {
    && n'.sd == n.sd && n'.events == n.events && n'.requests == n.requests && n'.txSeq == n.txSeq
    && n.wire <= n'.wire && n.app <= n'.app
    && (forall i :: |n.wire| <= i < |n'.wire| ==> exists k :: 0 <= k < |out| && Carries(cfg, n'.wire[i], out[k]))
    && (forall k :: 0 <= k < |out| && Sendable(cfg, out[k]) ==> exists i ::
        |n.wire| <= i < |n'.wire| && Carries(cfg, n'.wire[i], out[k]))
    && (forall i :: |n.app| <= i < |n'.app| ==> n'.app[i].Discovered? && n'.app[i].output in out)
  }

  lemma {:induction false} CarryAllCarries(cfg: NodeConfig, n: NodeState, out: seq<Output>)
    ensures Carried(cfg, n, CarryAll(cfg, n, out), out)
    decreases |out|
  {
    hide Carries, Sendable, Carry;
    if out != [] {
      var k := |out| - 1;
      var n1 := CarryAll(cfg, n, out[..k]);
      CarryAllCarries(cfg, n, out[..k]);
      CarryOne(cfg, n1, out[k]);
      var n' := Carry(cfg, n1, out[k]);
      CarriedPackets(cfg, n, n1, n', out);
    }
  }

  ghost predicate CarriedOne(cfg: NodeConfig, n: NodeState, n': NodeState, o: Output) {
    && n'.sd == n.sd && n'.events == n.events && n'.requests == n.requests && n'.txSeq == n.txSeq
    && n.wire <= n'.wire && |n'.wire| <= |n.wire| + 1 && n.app <= n'.app
    && (|n'.wire| > |n.wire| ==> Carries(cfg, n'.wire[|n.wire|], o))
    && (Sendable(cfg, o) ==> |n'.wire| > |n.wire|)
    && (forall i :: |n.app| <= i < |n'.app| ==> n'.app[i] == Discovered(o))
  }

  lemma CarryOne(cfg: NodeConfig, n: NodeState, o: Output)
    ensures CarriedOne(cfg, n, Carry(cfg, n, o), o)
  {
    hide SdFrame, Payload;
  }

  lemma CarriedPackets(cfg: NodeConfig, n: NodeState, n1: NodeState, n': NodeState, out: seq<Output>)
    requires out != [] && Carried(cfg, n, n1, out[..|out| - 1]) && CarriedOne(cfg, n1, n', out[|out| - 1])
    ensures Carried(cfg, n, n', out)
  {
    hide Carries, Sendable;
    var last := |out| - 1;
    forall i | |n.wire| <= i < |n'.wire|
      ensures exists k :: 0 <= k < |out| && Carries(cfg, n'.wire[i], out[k])
    {
      if i < |n1.wire| {
        var k :| 0 <= k < last && Carries(cfg, n1.wire[i], out[..last][k]);
        assert n'.wire[i] == n1.wire[i] && out[k] == out[..last][k];
      } else {
        assert Carries(cfg, n'.wire[i], out[last]);
      }
    }
    forall k | 0 <= k < |out| && Sendable(cfg, out[k])
      ensures exists i :: |n.wire| <= i < |n'.wire| && Carries(cfg, n'.wire[i], out[k])
    {
      if k < last {
        assert Sendable(cfg, out[..last][k]);
        var i :| |n.wire| <= i < |n1.wire| && Carries(cfg, n1.wire[i], out[..last][k]);
        assert n'.wire[i] == n1.wire[i];
      } else {
        assert Carries(cfg, n'.wire[|n1.wire|], out[k]);
      }
    }
    forall i | |n.app| <= i < |n'.app|
      ensures n'.app[i].Discovered? && n'.app[i].output in out
    {
      if i < |n1.app| {
        assert n'.app[i] == n1.app[i];
        assert n1.app[i].output in out[..last];
      }
    }
  }

  /** Outputs are carried out one after the other, the first one first. */
  lemma {:induction false} FirstOutputFirst(cfg: NodeConfig, n: NodeState, out: seq<Output>)
    requires out != []
    ensures CarryAll(cfg, n, out) == CarryAll(cfg, Carry(cfg, n, out[0]), out[1..])
    decreases |out|
  {
    hide Carry;
    var k := |out| - 1;
    var n1 := Carry(cfg, n, out[0]);
    if k == 0 {
      assert out[..0] == [] && out[1..] == [];
      assert CarryAll(cfg, n, out[..0]) == n && CarryAll(cfg, n1, out[1..]) == n1;
    } else {
      FirstOutputFirst(cfg, n, out[..k]);
      assert out[..k][1..] == out[1..][..k - 1] && out[1..][k - 1] == out[k];
    }
  }

  /** What carrying out one output does. A message with a payload of at most MaxPayloadSize + 16
      bytes is sent, with code zero and the next discovery sequence number; a longer one is
      silently not sent. */
  lemma CarriedOut(cfg: NodeConfig, n: NodeState, o: Output)
    ensures var n' := Carry(cfg, n, o);
      if o.Broadcast? || o.Unicast? then
        if ShortAddress(o.msg) && |Payload(o.msg)| <= cfg.maxPayloadSize + 16 then
          var ok := cfg.linkUp(|n.wire|);
          var dest := if o.Broadcast? then None else Some(o.dest);
          n' == n.(sdSeq := (n.sdSeq + 1) % 256,
                   wire := n.wire + [Packet(dest, SdFrame(cfg.sd.clientId, o.msg, 0, n.sdSeq), ok)],
                   counters := if ok then n.counters else Bump(n.counters, DroppedMessages))
        else n' == n
      else if o.PeerExpired? then n'.app == n.app && n'.wire == n.wire
      else n' == n.(app := n.app + [Discovered(o)])
  {
    hide SdFrame, Payload, Bump;
  }

  lemma SdStepCarries(cfg: NodeConfig, n: NodeState, e: Event, now: u32)
    ensures var n' := SdStep(cfg, n, e, now);
      && n'.sd == Step(cfg.sd, n.sd, e, now).0
      && Carried(cfg, n.(sd := n'.sd), n', Step(cfg.sd, n.sd, e, now).1)
  {
    hide Step, Carried;
    var (sd', out) := Step(cfg.sd, n.sd, e, now);
    CarryAllCarries(cfg, n.(sd := sd'), out);
    CarriedSd(cfg, n.(sd := sd'), CarryAll(cfg, n.(sd := sd'), out), out);
  }

  lemma CarriedSd(cfg: NodeConfig, n: NodeState, n': NodeState, out: seq<Output>)
    requires Carried(cfg, n, n', out)
    ensures n'.sd == n.sd
  {
  }
}
