/** Per-peer sequence tracking (`include/sero/security/e2e_protection.hpp`). */
module E2EProtection {
  import opened Words
  import opened Tables

  datatype SeqResult = Accept | Duplicate | Stale | FirstSeen | TableFull

  datatype Peer = Peer(address: Address, lastSeen: u8)

  // ----------------------------------------------------------------- specification

  function PeerIndex(peers: seq<Peer>, source: Address): (i: nat)
    ensures i <= |peers|
    ensures i < |peers| ==> peers[i].address == source
    ensures forall k :: 0 <= k < i ==> peers[k].address != source
  {
    if peers == [] || peers[0].address == source then 0 else 1 + PeerIndex(peers[1..], source)
  }

  /** `static_cast<uint8_t>(received - last)`. */
  function Delta(received: u8, last: u8): u8 {
    (received - last) % 256
  }

  function Validate(peers: seq<Peer>, capacity: nat, window: u8, source: Address,
                    received: u8): (seq<Peer>, SeqResult) {
    var i := PeerIndex(peers, source);
    if i < |peers| then
      var delta := Delta(received, peers[i].lastSeen);
      if delta == 0 then (peers, Duplicate)
      else if delta <= window then (peers[i := Peer(source, received)], Accept)
      else (peers, Stale)
    else if |peers| < capacity then (peers + [Peer(source, received)], FirstSeen)
    else (peers, TableFull)
  }

  function ResetPeer(peers: seq<Peer>, source: Address): seq<Peer> {
    var i := PeerIndex(peers, source);
    if i < |peers| then SwapRemove(peers, i) else peers
  }

  // -------------------------------------------------------------------- the object

  class E2EProtection {
    const window: u8
    const peers: array<Peer>
    var peerCount: nat
    var txSeq: u8

    ghost predicate Valid()
      reads this
    {
      peerCount <= peers.Length
    }

    ghost function Peers(): seq<Peer>
      requires Valid()
      reads this, peers
    {
      peers[..peerCount]
    }

    constructor (maxTrackedPeers: nat, seqCounterAcceptWindow: u8)
      ensures Valid() && Peers() == [] && txSeq == 0 && fresh(peers)
      ensures peers.Length == maxTrackedPeers && window == seqCounterAcceptWindow
    {
      window := seqCounterAcceptWindow;
      peers := new Peer[maxTrackedPeers](_ => Peer([], 0));
      peerCount := 0;
      txSeq := 0;
    }

    method NextSequence() returns (s: u8)
      modifies this`txSeq
      ensures s == old(txSeq) && txSeq == (s + 1) % 256
    {
      s := txSeq;
      txSeq := (txSeq + 1) % 256;
    }

    method ResetPeerState(source: Address)
      requires Valid()
      modifies this`peerCount, peers
      ensures Valid() && Peers() == ResetPeer(old(Peers()), source)
    {
      var i := 0;
      while i < peerCount
        invariant i <= peerCount && forall k :: 0 <= k < i ==> Peers()[k].address != source
      {
        if peers[i].address == source {
          PeerIndexIs(Peers(), source, i);
          RemoveAt(i);
          return;
        }
        i := i + 1;
      }
      PeerIndexIs(Peers(), source, peerCount);
    }

    /** The last entry fills the gap. */
    method RemoveAt(i: nat)
      requires Valid() && i < peerCount
      modifies this`peerCount, peers
      ensures Valid() && Peers() == SwapRemove(old(Peers()), i)
    {
      if i != peerCount - 1 {
        peers[i] := peers[peerCount - 1];
      }
      peers[peerCount - 1] := Peer([], 0);
      peerCount := peerCount - 1;
    }

    method ValidateSequence(source: Address, received: u8) returns (result: SeqResult)
      requires Valid()
      modifies this`peerCount, peers
      ensures Valid()
      ensures (Peers(), result) == Validate(old(Peers()), peers.Length, window, source, received)
    {
      var i := 0;
      while i < peerCount
        invariant i <= peerCount && forall k :: 0 <= k < i ==> peers[k].address != source
      {
        if peers[i].address == source {
          PeerIndexIs(Peers(), source, i);
          var delta := Delta(received, peers[i].lastSeen);
          if delta == 0 {
            return Duplicate;
          }
          if delta <= window {
            peers[i] := Peer(peers[i].address, received);
            return Accept;
          }
          return Stale;
        }
        i := i + 1;
      }
      PeerIndexIs(Peers(), source, peerCount);
      if peerCount < peers.Length {
        peers[peerCount] := Peer(source, received);
        peerCount := peerCount + 1;
        assert Peers() == old(Peers()) + [Peer(source, received)];
        return FirstSeen;
      }
      return TableFull;
    }
  }

  lemma PeerIndexIs(peers: seq<Peer>, source: Address, i: nat)
    requires i <= |peers| && (i < |peers| ==> peers[i].address == source)
    requires forall k :: 0 <= k < i ==> peers[k].address != source
    ensures PeerIndex(peers, source) == i
  {
  }

  // ------------------------------------------------------- the table refines a map

  /** No two entries for one address. */
  ghost predicate Distinct(peers: seq<Peer>) {
    forall i, j :: 0 <= i < j < |peers| ==> peers[i].address != peers[j].address
  }

  function Tracked(peers: seq<Peer>, source: Address): Option<u8> {
    var i := PeerIndex(peers, source);
    if i < |peers| then Some(peers[i].lastSeen) else None
  }

  lemma TrackedIs(peers: seq<Peer>, i: nat)
    requires Distinct(peers) && i < |peers|
    ensures Tracked(peers, peers[i].address) == Some(peers[i].lastSeen)
  {
    PeerIndexIs(peers, peers[i].address, i);
  }

  lemma ValidateKeeps(peers: seq<Peer>, capacity: nat, window: u8, source: Address, received: u8)
    requires Distinct(peers)
    ensures var (peers', result) := Validate(peers, capacity, window, source, received);
      && Distinct(peers')
      && (forall a :: a != source ==> Tracked(peers', a) == Tracked(peers, a))
      && Tracked(peers', source) == (if result.Accept? || result.FirstSeen? then Some(received)
        else Tracked(peers, source))
  {
    var (peers', result) := Validate(peers, capacity, window, source, received);
    var n := PeerIndex(peers, source);
    ValidateDistinct(peers, capacity, window, source, received);
    if result.Accept? || result.FirstSeen? {
      TrackedIs(peers', n);
    }
    forall a | a != source
      ensures Tracked(peers', a) == Tracked(peers, a)
    {
      ValidateOther(peers, capacity, window, source, received, a);
    }
  }

  lemma ValidateDistinct(peers: seq<Peer>, capacity: nat, window: u8, source: Address, received: u8)
    requires Distinct(peers)
    ensures Distinct(Validate(peers, capacity, window, source, received).0)
  {
  }

  lemma ValidateOther(peers: seq<Peer>, capacity: nat, window: u8, source: Address, received: u8, a: Address)
    requires Distinct(peers) && a != source
    ensures Tracked(Validate(peers, capacity, window, source, received).0, a) == Tracked(peers, a)
  {
    hide Distinct;
    var peers' := Validate(peers, capacity, window, source, received).0;
    ValidateDistinct(peers, capacity, window, source, received);
    var i := PeerIndex(peers, a);
    if i < |peers| {
      TrackedIs(peers', i);
    } else {
      PeerIndexIs(peers', a, |peers'|);
    }
  }

  lemma ResetDistinct(peers: seq<Peer>, source: Address)
    requires Distinct(peers)
    ensures Distinct(ResetPeer(peers, source))
  {
    var r := ResetPeer(peers, source);
    var n := PeerIndex(peers, source);
    forall i, j | 0 <= i < j < |r|
      ensures r[i].address != r[j].address
    {
      if n < |peers| {
        assert r[i] == peers[if i == n then |peers| - 1 else i] && r[j] == peers[if j == n then |peers| - 1 else j];
      }
    }
  }

  /** Resetting forgets exactly the one peer, although it moves another entry. */
  lemma ResetForgets(peers: seq<Peer>, source: Address)
    requires Distinct(peers)
    ensures var peers' := ResetPeer(peers, source);
      && Distinct(peers')
      && Tracked(peers', source) == None
      && (forall a :: a != source ==> Tracked(peers', a) == Tracked(peers, a))
  {
    var peers' := ResetPeer(peers, source);
    ResetDistinct(peers, source);
    ResetGone(peers, source);
    forall a | a != source
      ensures Tracked(peers', a) == Tracked(peers, a)
    {
      ResetOther(peers, source, a);
    }
  }

  lemma ResetGone(peers: seq<Peer>, source: Address)
    requires Distinct(peers)
    ensures Tracked(ResetPeer(peers, source), source) == None
  {
    var peers' := ResetPeer(peers, source);
    var n := PeerIndex(peers, source);
    assert forall k :: 0 <= k < |peers'| ==> peers'[k] == peers[if k == n then |peers| - 1 else k];
    PeerIndexIs(peers', source, |peers'|);
  }

  lemma ResetOther(peers: seq<Peer>, source: Address, a: Address)
    requires Distinct(peers) && a != source
    ensures Tracked(ResetPeer(peers, source), a) == Tracked(peers, a)
  {
    hide Distinct;
    var peers' := ResetPeer(peers, source);
    var n, i := PeerIndex(peers, source), PeerIndex(peers, a);
    ResetDistinct(peers, source);
    if i < |peers| {
      TrackedIs(peers', if n < |peers| && i == |peers| - 1 then n else i);
    } else {
      PeerIndexIs(peers', a, |peers'|);
    }
  }

  /** After a reset the peer's next message is never rejected, whatever it carries; a peer
      that was tracked is taken up again. */
  lemma AfterReset(peers: seq<Peer>, capacity: nat, window: u8, source: Address, received: u8)
    requires Distinct(peers) && |peers| <= capacity
    ensures var result := Validate(ResetPeer(peers, source), capacity, window, source, received).1;
      && (result.FirstSeen? || result.TableFull?)
      && (Tracked(peers, source).Some? ==> result.FirstSeen?)
  {
    ResetForgets(peers, source);
  }

  // --------------------------------------------------- against unbounded send indices

  /** One arrival against the last accepted true index: with `index` less than a full
      round minus the window behind and at most the window ahead, the 8-bit test
      compares true indices. */
  lemma WindowComparison(last: int, index: int, window: u8)
    requires last - (256 - window) < index <= last + window
    ensures var delta := Delta(index % 256, last % 256);
      && (delta == 0 <==> index == last)
      && (0 < delta <= window <==> index > last)
  {
    var d := index - last;
    assert Delta(index % 256, last % 256) == d % 256 by { ByteDifference(index, last); }
  }

  lemma ByteDifference(a: int, b: int)
    ensures (a % 256 - b % 256) % 256 == (a - b) % 256
  {
    var x, y := a / 256, b / 256;
    assert a % 256 - b % 256 == (a - b) - 256 * (x - y);
  }

  /** A message from `source`, the `index`-th one its device sent; or `reset_peer`, which
      the runtime calls on finds, reboots and expired services. */
  datatype Arrival = Arrival(source: Address, index: nat) | Reset(source: Address)

  /** The table after a run of arrivals and resets. */
  function After(peers: seq<Peer>, capacity: nat, window: u8, run: seq<Arrival>): seq<Peer> {
    if run == [] then peers
    else
      var p := After(peers, capacity, window, run[..|run| - 1]);
      match run[|run| - 1]
      case Arrival(source, index) => Validate(p, capacity, window, source, index % 256).0
      case Reset(source) => ResetPeer(p, source)
  }

  function ResultAt(capacity: nat, window: u8, run: seq<Arrival>, i: nat): SeqResult
    requires i < |run| && run[i].Arrival?
  {
    Validate(After([], capacity, window, run[..i]), capacity, window, run[i].source, run[i].index % 256).1
  }

  /** Step `i` takes up a message: it is accepted, or the first one seen. */
  predicate TakenUp(capacity: nat, window: u8, run: seq<Arrival>, i: nat)
    requires i < |run|
  {
    run[i].Arrival? && (ResultAt(capacity, window, run, i).Accept? || ResultAt(capacity, window, run, i).FirstSeen?)
  }

  /** The true index of the last message taken up from `source` since its last reset, if any. */
  ghost function LastIndex(capacity: nat, window: u8, run: seq<Arrival>, source: Address): Option<nat> {
    if run == [] then None
    else
      var n := |run| - 1;
      if run[n] == Reset(source) then None
      else if run[n].source == source && TakenUp(capacity, window, run, n) then Some(run[n].index)
      else LastIndex(capacity, window, run[..n], source)
  }

  /** Every arrival of a tracked peer lies in the window around its last index. */
  ghost predicate InWindow(capacity: nat, window: u8, run: seq<Arrival>) {
    forall i :: 0 <= i < |run| ==> ArrivesInWindow(capacity, window, run, i)
  }

  ghost predicate ArrivesInWindow(capacity: nat, window: u8, run: seq<Arrival>, i: nat)
    requires i < |run|
  {
    var last := LastIndex(capacity, window, run[..i], run[i].source);
    run[i].Arrival? && last.Some? ==> last.value - (256 - window) < run[i].index <= last.value + window
  }

  function ByteOf(index: Option<nat>): Option<u8> {
    match index
    case None => None
    case Some(l) => Some(l % 256)
  }

  lemma {:induction false} TracksLastIndex(capacity: nat, window: u8, run: seq<Arrival>)
    ensures Distinct(After([], capacity, window, run))
    ensures forall a :: Tracked(After([], capacity, window, run), a) == ByteOf(LastIndex(capacity, window, run, a))
    decreases |run|
  {
    hide Tracked, Validate, ResetPeer;
    if run == [] {
      NoneTracked();
    } else {
      var n := |run| - 1;
      TracksLastIndex(capacity, window, run[..n]);
      match run[n] {
        case Arrival(source, index) =>
          ValidateKeeps(After([], capacity, window, run[..n]), capacity, window, source, index % 256);
        case Reset(source) => ResetForgets(After([], capacity, window, run[..n]), source);
      }
      assert run[..n] == run[..|run|][..n];
    }
  }

  lemma NoneTracked()
    ensures Distinct([]) && forall a :: Tracked([], a) == None
  {
  }

  /** For every run of arrivals of any number of peers, in any order and with any losses and
      repetitions inside the window, and with resets of any peer in between: a message of a
      tracked peer is accepted exactly when its true index exceeds the last one taken up. */
  lemma AcceptsExactlyNewer(capacity: nat, window: u8, run: seq<Arrival>, i: nat)
    requires InWindow(capacity, window, run) && i < |run| && run[i].Arrival?
    requires LastIndex(capacity, window, run[..i], run[i].source).Some?
    ensures var last := LastIndex(capacity, window, run[..i], run[i].source).value;
      var result := ResultAt(capacity, window, run, i);
      && (result.Accept? <==> run[i].index > last)
      && (result.Duplicate? <==> run[i].index == last)
      && (result.Stale? <==> run[i].index < last)
  {
    TracksLastIndex(capacity, window, run[..i]);
    var last := LastIndex(capacity, window, run[..i], run[i].source).value;
    assert ArrivesInWindow(capacity, window, run, i);
    WindowComparison(last, run[i].index, window);
  }

  /** No reset of the peer strictly between steps `i` and `j`. */
  ghost predicate NoReset(run: seq<Arrival>, source: Address, i: nat, j: nat)
    requires j <= |run|
  {
    forall k :: i < k < j ==> run[k] != Reset(source)
  }

  /** So the true indices taken up from one peer strictly increase between resets. */
  lemma {:induction false} TakenUpIncreases(capacity: nat, window: u8, run: seq<Arrival>, i: nat, j: nat)
    requires InWindow(capacity, window, run) && i < j < |run|
    requires run[i].source == run[j].source && NoReset(run, run[i].source, i, j)
    requires TakenUp(capacity, window, run, i) && TakenUp(capacity, window, run, j)
    ensures run[i].index < run[j].index
  {
    LastAtLeast(capacity, window, run, i, j);
    AcceptsExactlyNewer(capacity, window, run, j);
    TracksLastIndex(capacity, window, run[..j]);
  }

  lemma {:induction false} LastAtLeast(capacity: nat, window: u8, run: seq<Arrival>, i: nat, j: nat)
    requires InWindow(capacity, window, run) && i < j <= |run|
    requires TakenUp(capacity, window, run, i) && NoReset(run, run[i].source, i, j)
    ensures var last := LastIndex(capacity, window, run[..j], run[i].source);
      last.Some? && last.value >= run[i].index
    decreases j
  {
    hide Validate;
    var n := j - 1;
    assert run[..j][..n] == run[..n] && run[..j][n] == run[n];
    SameTaken(capacity, window, run, j, n);
    if i < n {
      LastAtLeast(capacity, window, run, i, n);
      if run[n].source == run[i].source && TakenUp(capacity, window, run, n) {
        AcceptsExactlyNewer(capacity, window, run, n);
        NotFirst(capacity, window, run, n);
      }
    }
  }

  /** What a step does does not depend on later steps. */
  lemma SameTaken(capacity: nat, window: u8, run: seq<Arrival>, j: nat, n: nat)
    requires n < j <= |run|
    ensures TakenUp(capacity, window, run[..j], n) == TakenUp(capacity, window, run, n)
  {
    assert run[..j][..n] == run[..n];
  }

  lemma NotFirst(capacity: nat, window: u8, run: seq<Arrival>, n: nat)
    requires n < |run| && run[n].Arrival? && LastIndex(capacity, window, run[..n], run[n].source).Some?
    ensures !ResultAt(capacity, window, run, n).FirstSeen?
  {
    TracksLastIndex(capacity, window, run[..n]);
  }

  // --------------------------------------------- replays, without assuming any window

  /** How many messages of `source` were taken up on a run. */
  ghost function TakenCount(capacity: nat, window: u8, run: seq<Arrival>, source: Address): nat {
    if run == [] then 0
    else
      var n := |run| - 1;
      TakenCount(capacity, window, run[..n], source)
      + (if run[n].source == source && TakenUp(capacity, window, run, n) then 1 else 0)
  }

  /** One more step, seen by a peer whose tracked byte is that of `x`. */
  lemma AdvanceStep(capacity: nat, window: u8, run: seq<Arrival>, n: nat, source: Address, x: nat) returns (delta: u8)
    requires n < |run| && Tracked(After([], capacity, window, run[..n]), source) == Some(x % 256)
      && run[n] != Reset(source)
    ensures Tracked(After([], capacity, window, run[..n + 1]), source) == Some((x + delta) % 256)
    ensures if run[n].source == source && TakenUp(capacity, window, run, n) then 1 <= delta <= window else delta == 0
  {
    TracksLastIndex(capacity, window, run[..n]);
    var p := After([], capacity, window, run[..n]);
    assert run[..n + 1][..n] == run[..n];
    delta := 0;
    match run[n]
    case Reset(other) => ResetForgets(p, other);
    case Arrival(sender, index) =>
      ValidateKeeps(p, capacity, window, sender, index % 256);
      if sender == source && TakenUp(capacity, window, run, n) {
        delta := Delta(index % 256, x % 256);
        AdvanceByte(x, index, delta);
      }
  }

  lemma TrackedOnceTaken(capacity: nat, window: u8, run: seq<Arrival>, i: nat)
    requires i < |run| && TakenUp(capacity, window, run, i)
    ensures Tracked(After([], capacity, window, run[..i + 1]), run[i].source) == Some(run[i].index % 256)
  {
    TracksLastIndex(capacity, window, run[..i]);
    ValidateKeeps(After([], capacity, window, run[..i]), capacity, window, run[i].source, run[i].index % 256);
    assert run[..i + 1][..i] == run[..i];
  }

  lemma TakenCountStep(capacity: nat, window: u8, run: seq<Arrival>, n: nat, source: Address)
    requires n < |run|
    ensures TakenCount(capacity, window, run[..n + 1], source) == TakenCount(capacity, window, run[..n], source)
      + (if run[n].source == source && TakenUp(capacity, window, run, n) then 1 else 0)
  {
    hide TakenUp;
    assert run[..n + 1][..n] == run[..n];
    SameTaken(capacity, window, run, n + 1, n);
  }

  /** The distance the 8-bit window has moved forward for `source`: between one and
      `window` per acceptance. */
  lemma {:induction false} WindowAdvances(capacity: nat, window: u8, run: seq<Arrival>, i: nat, j: nat)
    returns (advance: nat)
    requires i < j <= |run| && TakenUp(capacity, window, run, i) && NoReset(run, run[i].source, i, j)
    ensures var source := run[i].source;
      var k := TakenCount(capacity, window, run[..j], source) - TakenCount(capacity, window, run[..i + 1], source);
      && k >= 0 && k <= advance <= k * window
      && Tracked(After([], capacity, window, run[..j]), source) == Some((run[i].index + advance) % 256)
    decreases j
  {
    hide Tracked, After, TakenCount, ResultAt;
    var n := j - 1;
    var source := run[i].source;
    if i == n {
      TrackedOnceTaken(capacity, window, run, i);
      advance := 0;
    } else {
      advance := WindowAdvances(capacity, window, run, i, n);
      var k := TakenCount(capacity, window, run[..n], source) - TakenCount(capacity, window, run[..i + 1], source);
      var delta := AdvanceStep(capacity, window, run, n, source, run[i].index + advance);
      TakenCountStep(capacity, window, run, n, source);
      OneMore(k, window);
      advance := advance + delta;
    }
  }

  lemma OneMore(k: int, window: int)
    ensures (k + 1) * window == k * window + window
  {
  }

  lemma AdvanceByte(a: nat, b: nat, delta: u8)
    requires delta == Delta(b % 256, a % 256)
    ensures (a + delta) % 256 == b % 256
  {
    ByteDifference(b, a);
    var x := (b - a) / 256;
    assert b == a + delta + 256 * x;
  }

  /** A byte value accepted twice from one peer, without a reset in between, was accepted `k`
      acceptances apart with `k * window >= 256`: a replayed frame is not taken up again
      before that. */
  lemma ReplayDistance(capacity: nat, window: u8, run: seq<Arrival>, i: nat, j: nat)
    requires i < j < |run| && run[i].source == run[j].source && NoReset(run, run[i].source, i, j)
    requires TakenUp(capacity, window, run, i) && TakenUp(capacity, window, run, j)
    requires run[i].index % 256 == run[j].index % 256
    ensures var k := TakenCount(capacity, window, run[..j + 1], run[i].source)
                   - TakenCount(capacity, window, run[..i + 1], run[i].source);
      k * window >= 256
  {
    hide Tracked, After, TakenCount, ResultAt;
    var advance := WindowAdvances(capacity, window, run, i, j + 1);
    var before := WindowAdvances(capacity, window, run, i, j);
    TakenCountStep(capacity, window, run, j, run[i].source);
    TrackedOnceTaken(capacity, window, run, j);
    SameByte(run[i].index, advance);
  }

  lemma SameByte(a: nat, advance: nat)
    requires advance > 0 && (a + advance) % 256 == a % 256
    ensures advance >= 256
  {
  }

  // ------------------------------------------------------------ one sending counter

  /** One counter serves all destinations: after `others` messages to other devices, the
      next message to a receiver that saw counter value `s` is accepted if and only if
      the gap modulo 256 lies in the window. With `others >= window` (and a gap below
      256) a loss-free link rejects a fresh message as stale. */
  lemma SharedCounter(peers: seq<Peer>, capacity: nat, window: u8, source: Address, sent: nat, others: nat)
    requires Distinct(peers) && Tracked(peers, source) == Some(sent % 256)
    ensures var result := Validate(peers, capacity, window, source, (sent + others + 1) % 256).1;
      && (result.Accept? <==> 1 <= (others + 1) % 256 <= window)
      && (window <= others < 255 ==> result.Stale?)
  {
    ByteDifference(sent + others + 1, sent);
  }
}
