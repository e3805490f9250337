/** HMAC-SHA-256 (RFC 2104) and its truncation to 128 bits. */
module HmacSpec {
  import opened Words
  import opened Sha256Spec

  /** Step (1) of section 2 of RFC 2104, hashing keys longer than a block first. */
  function KeyBlock(key: Bytes): (k: Bytes)
    ensures |k| == 64
  {
    if |key| > 64 then Digest(key) + Zeros(32) else key + Zeros(64 - |key|)
  }

  function XorByte(b: u8, pad: bv8): u8 {
    (Bv8(b) ^ pad) as u8
  }

  function XorPad(k: Bytes, pad: bv8): (b: Bytes)
    ensures |b| == |k|
  {
    seq(|k|, i requires 0 <= i < |k| => XorByte(k[i], pad))
  }

  const IPAD: bv8 := 0x36
  const OPAD: bv8 := 0x5c

  /** H(K XOR opad, H(K XOR ipad, text)). */
  function Hmac(key: Bytes, text: Bytes): (mac: Bytes)
    ensures |mac| == 32
  {
    Digest(XorPad(KeyBlock(key), OPAD) + Digest(XorPad(KeyBlock(key), IPAD) + text))
  }

  /** Section 5 of RFC 2104: the leftmost 128 bits. */
  function Hmac128(key: Bytes, text: Bytes): (mac: Bytes)
    ensures |mac| == 16
  {
    Hmac(key, text)[..16]
  }
}

/** `include/sero/security/hmac.hpp` and `include/sero/security/message_authenticator.hpp`. */
module Hmac {
  import opened Words
  import opened Sha256Spec
  import opened HmacSpec
  import Sha256

  /** The longest text a hash context may take: 2^61 bytes less the key block. */
  const MAX_TEXT: nat := 0x1FFF_FFFF_FFFF_FFC0

  method DeriveKey(key: Bytes) returns (kPrime: array<u8>)
    requires |key| < MAX_TEXT
    ensures fresh(kPrime) && kPrime[..] == KeyBlock(key)
  {
    hide Digest;
    kPrime := new u8[64](_ => 0);
    if |key| > 64 {
      Sha256.Sha256.Hash(key, kPrime);
      for i := 32 to 64
        invariant kPrime[..32] == Digest(key)
        invariant forall k :: 32 <= k < i ==> kPrime[k] == 0
      {
        kPrime[i] := 0;
      }
      assert kPrime[..] == kPrime[..32] + kPrime[32..];
      assert kPrime[32..] == Zeros(32);
    } else {
      for i := 0 to |key|
        invariant kPrime[..i] == key[..i]
      {
        kPrime[i] := key[i];
      }
      for i := |key| to 64
        invariant kPrime[..|key|] == key
        invariant forall k :: |key| <= k < i ==> kPrime[k] == 0
      {
        kPrime[i] := 0;
      }
      assert kPrime[..] == kPrime[..|key|] + kPrime[|key|..];
      assert kPrime[|key|..] == Zeros(64 - |key|);
    }
  }

  method PadBlock(kPrime: array<u8>, pad: bv8) returns (block: array<u8>)
    ensures fresh(block) && block[..] == XorPad(kPrime[..], pad)
  {
    hide XorByte;
    block := new u8[kPrime.Length](_ => 0);
    for i := 0 to kPrime.Length
      invariant forall k :: 0 <= k < i ==> block[k] == XorByte(kPrime[k], pad)
    {
      block[i] := XorByte(kPrime[i], pad);
    }
  }

  /** Both passes, with the text given in two parts; `out` receives the leftmost bytes. */
  method TwoPart(key: Bytes, part1: Bytes, part2: Bytes, out: array<u8>, length: nat)
    requires |key| < MAX_TEXT && |part1| + |part2| < MAX_TEXT
    requires length <= 32 && length <= out.Length
    modifies out
    ensures out[..length] == Hmac(key, part1 + part2)[..length]
    ensures out[length..] == old(out[length..])
  {
    hide Digest, KeyBlock, XorPad;
    var kPrime := DeriveKey(key);
    var ipadBlock := PadBlock(kPrime, IPAD);
    var innerHash := InnerHash(ipadBlock[..], part1, part2);
    var opadBlock := PadBlock(kPrime, OPAD);
    var full := InnerHash(opadBlock[..], innerHash[..], []);
    assert innerHash[..] + [] == innerHash[..];
    assert full[..] == Hmac(key, part1 + part2);
    for i := 0 to length
      invariant full[..] == Hmac(key, part1 + part2) && out[..i] == full[..i]
      invariant out[length..] == old(out[length..])
    {
      out[i] := full[i];
    }
    assert full[..length] == full[..][..length];
  }

  /** One context fed with a pad block and two parts. */
  method InnerHash(block: Bytes, part1: Bytes, part2: Bytes) returns (digest: array<u8>)
    requires |block| == 64 && |part1| + |part2| < MAX_TEXT
    ensures fresh(digest) && digest[..] == Digest(block + (part1 + part2))
  {
    hide Digest, Full, Tail, Fold;
    var ctx := new Sha256.Sha256();
    ctx.Update(block);
    ctx.Update(part1);
    ctx.Update(part2);
    ThreeUpdates(block, part1, part2);
    digest := new u8[32](_ => 0);
    ctx.Finalize(digest);
    assert digest[..] == digest[..32];
  }

  lemma ThreeUpdates(a: Bytes, b: Bytes, c: Bytes)
    ensures [] + a + b + c == a + (b + c)
  {
  }

  /** `hmac_sha256`: the text in one part. */
  method HmacSha256(key: Bytes, data: Bytes, out: array<u8>)
    requires |key| < MAX_TEXT && |data| < MAX_TEXT && out.Length >= 32
    modifies out
    ensures out[..32] == Hmac(key, data) && out[32..] == old(out[32..])
  {
    hide Hmac;
    TwoPart(key, data, [], out, 32);
    assert data + [] == data;
  }

  method HmacSha256Truncated(key: Bytes, data: Bytes, out: array<u8>)
    requires |key| < MAX_TEXT && |data| < MAX_TEXT && out.Length >= 16
    modifies out
    ensures out[..16] == Hmac128(key, data) && out[16..] == old(out[16..])
  {
    hide Hmac;
    var full := new u8[32](_ => 0);
    HmacSha256(key, data, full);
    forall i | 0 <= i < 16 {
      out[i] := full[i];
    }
    assert out[..16] == full[..32][..16];
  }

  function OrInto(diff: bv8, a: u8, b: u8): bv8 {
    diff | (Bv8(a) ^ Bv8(b))
  }

  /** The comparison that always looks at all 16 bytes decides equality. */
  method HmacEqual(a: Bytes, b: Bytes) returns (equal: bool)
    requires |a| == |b| == 16
    ensures equal <==> a == b
  {
    hide OrInto;
    var diff: bv8 := 0;
    for i := 0 to 16
      invariant diff == 0 <==> a[..i] == b[..i]
    {
      OrZero(diff, a[i], b[i]);
      diff := OrInto(diff, a[i], b[i]);
      assert a[..i + 1] == a[..i] + [a[i]] && b[..i + 1] == b[..i] + [b[i]];
    }
    assert a[..16] == a && b[..16] == b;
    equal := diff == 0;
  }

  lemma OrZero(diff: bv8, a: u8, b: u8)
    ensures OrInto(diff, a, b) == 0 <==> diff == 0 && a == b
  {
    BvOrZero(diff, Bv8(a), Bv8(b));
    if Bv8(a) == Bv8(b) {
      Bv8Injective(a, b);
    }
  }

  lemma BvOrZero(diff: bv8, a: bv8, b: bv8)
    ensures diff | (a ^ b) == 0 <==> diff == 0 && a == b
  {
  }

  // ------------------------------------------------------------------- key table

  datatype KeyEntry = KeyEntry(address: Address, key: Bytes)

  /** The key a table of entries holds for a peer: that of the first match. */
  function Lookup(entries: seq<KeyEntry>, peer: Address): Option<Bytes> {
    if entries == [] then None
    else if entries[0].address == peer then Some(entries[0].key)
    else Lookup(entries[1..], peer)
  }

  /** The tag a sender with this table attaches for `peer`. */
  function Tag(keys: seq<KeyEntry>, peer: Address, header: Bytes, payload: Bytes): Option<Bytes> {
    match Lookup(keys, peer)
    case None => None
    case Some(key) => Some(Hmac128(key, header + payload))
  }

  /** Whether a receiver with this table accepts `tag` from `peer`. */
  predicate Accepts(keys: seq<KeyEntry>, peer: Address, header: Bytes, payload: Bytes, tag: Bytes) {
    Tag(keys, peer, header, payload) == Some(tag)
  }

  class MessageAuthenticator {
    const keySize: nat
    const keys: array<KeyEntry>
    var keyCount: nat

    ghost predicate Valid()
      reads this, keys
    {
      && keyCount <= keys.Length
      && keySize < MAX_TEXT
      && forall i :: 0 <= i < keyCount ==> |keys[i].key| == keySize
    }

    ghost function Entries(): seq<KeyEntry>
      requires Valid()
      reads this, keys
    {
      keys[..keyCount]
    }

    constructor (maxTrackedPeers: nat, hmacKeySize: nat)
      requires hmacKeySize < MAX_TEXT
      ensures Valid() && Entries() == [] && keySize == hmacKeySize
      ensures fresh(keys) && keys.Length == maxTrackedPeers
    {
      keySize := hmacKeySize;
      keys := new KeyEntry[maxTrackedPeers](_ => KeyEntry([], []));
      keyCount := 0;
    }

    /** Registers or replaces one peer's key; every other peer's key stays. */
    method SetKey(peer: Address, key: Bytes) returns (ok: bool)
      requires Valid() && |key| == keySize
      modifies this`keyCount, keys
      ensures Valid()
      ensures ok <==> old(Lookup(Entries(), peer)).Some? || old(keyCount) < keys.Length
      ensures !ok ==> Entries() == old(Entries())
      ensures ok ==> Lookup(Entries(), peer) == Some(key)
      ensures forall p :: p != peer ==> Lookup(Entries(), p) == old(Lookup(Entries(), p))
    {
      var i := 0;
      while i < keyCount
        invariant i <= keyCount && forall k :: 0 <= k < i ==> keys[k].address != peer
      {
        if keys[i].address == peer {
          LookupAt(Entries(), peer, i);
          keys[i] := KeyEntry(keys[i].address, key);
          LookupAt(Entries(), peer, i);
          LookupReplaced(old(Entries()), Entries(), i);
          return true;
        }
        i := i + 1;
      }
      LookupNone(Entries(), peer);
      if keyCount < keys.Length {
        keys[keyCount] := KeyEntry(peer, key);
        keyCount := keyCount + 1;
        assert Entries() == old(Entries()) + [KeyEntry(peer, key)];
        LookupAppended(old(Entries()), KeyEntry(peer, key));
        return true;
      }
      return false;
    }

    method FindKey(peer: Address) returns (key: Option<Bytes>)
      requires Valid()
      ensures key == Lookup(Entries(), peer)
      ensures key.Some? ==> |key.value| == keySize
    {
      for i := 0 to keyCount
        invariant forall k :: 0 <= k < i ==> keys[k].address != peer
      {
        if keys[i].address == peer {
          LookupAt(Entries(), peer, i);
          return Some(keys[i].key);
        }
      }
      LookupNone(Entries(), peer);
      return None;
    }

    method HasKey(peer: Address) returns (has: bool)
      requires Valid()
      ensures has <==> Lookup(Entries(), peer).Some?
    {
      var key := FindKey(peer);
      has := key.Some?;
    }

    /** Writes the tag over header and payload, or leaves `out` alone without a key. */
    method Compute(header: Bytes, payload: Bytes, peer: Address, out: array<u8>) returns (ok: bool)
      requires Valid() && |header| + |payload| < MAX_TEXT && out.Length == 16
      modifies out
      ensures ok ==> Tag(Entries(), peer, header, payload) == Some(out[..])
      ensures !ok ==> Tag(Entries(), peer, header, payload) == None && out[..] == old(out[..])
    {
      hide Hmac;
      var key := FindKey(peer);
      if key.None? {
        return false;
      }
      TwoPart(key.value, header, payload, out, 16);
      assert out[..] == out[..16];
      return true;
    }

    /** Accepts exactly the tag `Compute` would write under the same key. */
    method Verify(header: Bytes, payload: Bytes, peer: Address, received: Bytes) returns (ok: bool)
      requires Valid() && |header| + |payload| < MAX_TEXT && |received| == 16
      ensures ok <==> Accepts(Entries(), peer, header, payload, received)
    {
      hide Hmac128;
      var computed := new u8[16](_ => 0);
      var has := Compute(header, payload, peer, computed);
      if !has {
        return false;
      }
      ok := HmacEqual(computed[..], received);
    }
  }

  lemma {:induction false} LookupAt(entries: seq<KeyEntry>, peer: Address, i: nat)
    requires i < |entries| && entries[i].address == peer
    requires forall k :: 0 <= k < i ==> entries[k].address != peer
    ensures Lookup(entries, peer) == Some(entries[i].key)
    decreases |entries|
  {
    if i > 0 {
      LookupAt(entries[1..], peer, i - 1);
    }
  }

  lemma {:induction false} LookupNone(entries: seq<KeyEntry>, peer: Address)
    requires forall k :: 0 <= k < |entries| ==> entries[k].address != peer
    ensures Lookup(entries, peer) == None
    decreases |entries|
  {
    if entries != [] {
      LookupNone(entries[1..], peer);
    }
  }

  lemma {:induction false} LookupReplaced(before: seq<KeyEntry>, after: seq<KeyEntry>, i: nat)
    requires |before| == |after| && i < |before| && before[i].address == after[i].address
    requires forall k :: 0 <= k < |before| && k != i ==> before[k] == after[k]
    ensures forall p :: p != before[i].address ==> Lookup(after, p) == Lookup(before, p)
    decreases |before|
  {
    if i > 0 {
      LookupReplaced(before[1..], after[1..], i - 1);
    } else {
      assert before[1..] == after[1..];
    }
  }

  lemma {:induction false} LookupAppended(entries: seq<KeyEntry>, e: KeyEntry)
    ensures forall p :: Lookup(entries, p).Some? ==> Lookup(entries + [e], p) == Lookup(entries, p)
    ensures forall p :: Lookup(entries, p).None? ==>
      Lookup(entries + [e], p) == (if p == e.address then Some(e.key) else None)
    decreases |entries|
  {
    if entries == [] {
      assert [e][1..] == [];
    } else {
      assert (entries + [e])[1..] == entries[1..] + [e];
      LookupAppended(entries[1..], e);
    }
  }
}
