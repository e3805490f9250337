/** The hash function of FIPS 180-4, sections 2 to 6, on byte messages. */
module Sha256Spec {
  import opened Words

  type Word = bv32

  function RotR(x: Word, n: Word): Word
    requires n < 32
  {
    (x >> n) | (x << (32 - n))
  }

  function Add(x: Word, y: Word): Word {
    x + y
  }

  function Ch(x: Word, y: Word, z: Word): Word {
    (x & y) ^ (!x & z)
  }

  function Maj(x: Word, y: Word, z: Word): Word {
    (x & y) ^ (x & z) ^ (y & z)
  }

  function BigSigma0(x: Word): Word {
    RotR(x, 2) ^ RotR(x, 13) ^ RotR(x, 22)
  }

  function BigSigma1(x: Word): Word {
    RotR(x, 6) ^ RotR(x, 11) ^ RotR(x, 25)
  }

  function SmallSigma0(x: Word): Word {
    RotR(x, 7) ^ RotR(x, 18) ^ (x >> 3)
  }

  function SmallSigma1(x: Word): Word {
    RotR(x, 17) ^ RotR(x, 19) ^ (x >> 10)
  }

  /** Section 4.2.2. */
  const K: seq<Word> :=
    [0x428a2f98, 0x71374491, 0xb5c0fbcf, 0xe9b5dba5, 0x3956c25b, 0x59f111f1, 0x923f82a4, 0xab1c5ed5,
     0xd807aa98, 0x12835b01, 0x243185be, 0x550c7dc3, 0x72be5d74, 0x80deb1fe, 0x9bdc06a7, 0xc19bf174]
    + [0xe49b69c1, 0xefbe4786, 0x0fc19dc6, 0x240ca1cc, 0x2de92c6f, 0x4a7484aa, 0x5cb0a9dc, 0x76f988da,
       0x983e5152, 0xa831c66d, 0xb00327c8, 0xbf597fc7, 0xc6e00bf3, 0xd5a79147, 0x06ca6351, 0x14292967]
    + [0x27b70a85, 0x2e1b2138, 0x4d2c6dfc, 0x53380d13, 0x650a7354, 0x766a0abb, 0x81c2c92e, 0x92722c85,
       0xa2bfe8a1, 0xa81a664b, 0xc24b8b70, 0xc76c51a3, 0xd192e819, 0xd6990624, 0xf40e3585, 0x106aa070]
    + [0x19a4c116, 0x1e376c08, 0x2748774c, 0x34b0bcb5, 0x391c0cb3, 0x4ed8aa4a, 0x5b9cca4f, 0x682e6ff3,
       0x748f82ee, 0x78a5636f, 0x84c87814, 0x8cc70208, 0x90befffa, 0xa4506ceb, 0xbef9a3f7, 0xc67178f2]

  /** Eight words: a hash value, or the working variables. */
  datatype Eight = Eight(a: Word, b: Word, c: Word, d: Word, e: Word, f: Word, g: Word, h: Word)

  /** Section 5.3.3. */
  const H0 := Eight(0x6a09e667, 0xbb67ae85, 0x3c6ef372, 0xa54ff53a, 0x510e527f, 0x9b05688c, 0x1f83d9ab, 0x5be0cd19)

  type Block = m: Bytes | |m| == 64 witness seq(64, _ => 0)

  function BigEndianWord(b0: u8, b1: u8, b2: u8, b3: u8): Word {
    ((Bv8(b0) as Word) << 24) | ((Bv8(b1) as Word) << 16) | ((Bv8(b2) as Word) << 8) | (Bv8(b3) as Word)
  }

  /** The message schedule, step 1 of section 6.2.2. */
  function W(m: Block, t: nat): Word
    requires t < 64
    decreases t
  {
    if t < 16 then BigEndianWord(m[4 * t], m[4 * t + 1], m[4 * t + 2], m[4 * t + 3])
    else Add(Add(Add(SmallSigma1(W(m, t - 2)), W(m, t - 7)), SmallSigma0(W(m, t - 15))), W(m, t - 16))
  }

  /** Step 3 of section 6.2.2, for one value of `t`. */
  function Round(v: Eight, k: Word, w: Word): Eight {
    var t1 := Add(Add(Add(Add(v.h, BigSigma1(v.e)), Ch(v.e, v.f, v.g)), k), w);
    var t2 := Add(BigSigma0(v.a), Maj(v.a, v.b, v.c));
    Eight(Add(t1, t2), v.a, v.b, v.c, Add(v.d, t1), v.e, v.f, v.g)
  }

  function Rounds(v: Eight, m: Block, n: nat): Eight
    requires n <= 64
    decreases n
  {
    if n == 0 then v else Round(Rounds(v, m, n - 1), K[n - 1], W(m, n - 1))
  }

  function AddEight(x: Eight, y: Eight): Eight {
    Eight(Add(x.a, y.a), Add(x.b, y.b), Add(x.c, y.c), Add(x.d, y.d),
          Add(x.e, y.e), Add(x.f, y.f), Add(x.g, y.g), Add(x.h, y.h))
  }

  /** Steps 1 to 4 of section 6.2.2: the next intermediate hash value. */
  function Compress(h: Eight, m: Block): Eight {
    AddEight(h, Rounds(h, m, 64))
  }

  /** All whole blocks of a message, in order. */
  function Fold(h: Eight, m: Bytes): Eight
    decreases |m|
  {
    if |m| < 64 then h else Compress(Fold(h, m[..|m| - 64]), m[|m| - 64..])
  }

  function Zeros(n: nat): (z: Bytes)
    ensures |z| == n
  {
    seq(n, _ => 0)
  }

  /** `n` bytes, most significant first. */
  function BigEndian(x: nat, n: nat): (b: Bytes)
    ensures |b| == n
    decreases n
  {
    if n == 0 then [] else BigEndian(x / 256, n - 1) + [x % 256]
  }

  /** `n` message bytes, the marker and `k` zero bytes leave room for exactly the length. */
  predicate Fills(n: nat, k: nat) {
    (n + 1 + k) % 64 == 56
  }

  /** Section 5.1.1 in bytes: the smallest such `k`. */
  function PadLength(n: nat): (k: nat)
    ensures Fills(n, k)
    ensures forall j: nat :: Fills(n, j) ==> k <= j
  {
    (119 - n % 64) % 64
  }

  function Pad(m: Bytes): Bytes {
    m + [0x80] + Zeros(PadLength(|m|)) + BigEndian(8 * |m|, 8)
  }

  function WordBytes(w: Word): (b: Bytes)
    ensures |b| == 4
  {
    [((w >> 24) & 0xFF) as bv8 as u8, ((w >> 16) & 0xFF) as bv8 as u8,
     ((w >> 8) & 0xFF) as bv8 as u8, (w & 0xFF) as bv8 as u8]
  }

  function HashBytes(h: Eight): (b: Bytes)
    ensures |b| == 32
  {
    WordBytes(h.a) + WordBytes(h.b) + WordBytes(h.c) + WordBytes(h.d)
    + WordBytes(h.e) + WordBytes(h.f) + WordBytes(h.g) + WordBytes(h.h)
  }

  /** The message digest. */
  function Digest(m: Bytes): (d: Bytes)
    ensures |d| == 32
  {
    HashBytes(Fold(H0, Pad(m)))
  }

  // ------------------------------------------------------------------------ lemmas

  lemma FoldBlock(h: Eight, m: Bytes, b: Block)
    requires |m| % 64 == 0
    ensures Fold(h, m + b) == Compress(Fold(h, m), b)
  {
    hide Compress;
    assert (m + b)[..|m + b| - 64] == m && (m + b)[|m + b| - 64..] == b;
  }

  lemma ScheduleStart(m: Block, t: nat)
    requires t < 16
    ensures W(m, t) == BigEndianWord(m[4 * t], m[4 * t + 1], m[4 * t + 2], m[4 * t + 3])
  {
  }

  lemma ScheduleStep(m: Block, t: nat)
    requires 16 <= t < 64
    ensures W(m, t) == Add(Add(Add(SmallSigma1(W(m, t - 2)), W(m, t - 7)), SmallSigma0(W(m, t - 15))), W(m, t - 16))
  {
  }

  /** A number shifted right by `8 * i` bits. */
  function ShiftBytes(x: nat, i: nat): nat
    decreases i
  {
    if i == 0 then x else ShiftBytes(x / 256, i - 1)
  }

  lemma {:induction false} BigEndianAt(x: nat, n: nat, j: nat)
    requires j < n
    ensures BigEndian(x, n)[j] == ShiftBytes(x, n - 1 - j) % 256
    decreases n
  {
    if j < n - 1 {
      BigEndianAt(x / 256, n - 1, j);
    }
  }

  /** The part of a message behind its last full block. */
  function Tail(m: Bytes): Bytes {
    m[|m| - |m| % 64..]
  }

  function Full(m: Bytes): Bytes {
    m[..|m| - |m| % 64]
  }

  lemma FullAndTail(m: Bytes)
    ensures m == Full(m) + Tail(m) && |Full(m)| % 64 == 0 && |Tail(m)| == |m| % 64
  {
  }

  lemma Parts(m: Bytes)
    ensures m == Full(m) + Tail(m)
  {
  }

  lemma PadLengthCases(n: nat, r: nat)
    requires r == n % 64
    ensures PadLength(n) == if r <= 55 then 55 - r else (63 - r) + 56
  {
    hide Fills;
    Residue(119 - r);
  }

  lemma PadLengthLong(n: nat)
    requires n % 64 > 55
    ensures n % 64 <= 63 && PadLength(n) == (63 - n % 64) + 56
  {
    hide *;
    PadLengthCases(n, n % 64);
  }

  lemma Residue(x: nat)
    requires x < 128
    ensures x % 64 == if x < 64 then x else x - 64
  {
  }

  /** The padded message is a whole number of blocks. */
  lemma PadIsWhole(m: Bytes)
    ensures |Pad(m)| % 64 == 0
  {
    hide PadLength, Zeros, BigEndian;
    var k := PadLength(|m|);
    assert Fills(|m|, k);
    LengthCompletes(|m| + 1 + k);
  }

  lemma LengthCompletes(x: nat)
    requires x % 64 == 56
    ensures (x + 8) % 64 == 0
  {
  }

  /** With at most 55 bytes behind the last full block one more block is hashed. */
  lemma OneLastBlock(m: Bytes)
    requires |m| % 64 <= 55
    ensures Pad(m) == Full(m) + (Tail(m) + [0x80] + Zeros(55 - |m| % 64) + BigEndian(8 * |m|, 8))
  {
    hide *;
    Parts(m);
    var r := |m| % 64;
    PadLengthCases(|m|, r);
    PadOne(m, Full(m), Tail(m), 55 - r);
  }

  lemma PadOne(m: Bytes, full: Bytes, tail: Bytes, z: nat)
    requires m == full + tail && PadLength(|m|) == z
    ensures Pad(m) == full + (tail + [0x80] + Zeros(z) + BigEndian(8 * |m|, 8))
  {
    hide PadLength, Zeros, BigEndian;
    OneBlockAssoc(full, tail, Zeros(z), BigEndian(8 * |m|, 8));
  }

  /** With more than that, two. */
  lemma TwoLastBlocks(m: Bytes)
    requires |m| % 64 > 55
    ensures Pad(m) == Full(m) + (Tail(m) + [0x80] + Zeros(63 - |m| % 64)) + (Zeros(56) + BigEndian(8 * |m|, 8))
  {
    hide *;
    Parts(m);
    PadLengthLong(|m|);
    PadTwo(m, Full(m), Tail(m), 63 - |m| % 64);
  }

  lemma PadTwo(m: Bytes, full: Bytes, tail: Bytes, z: nat)
    requires m == full + tail && PadLength(|m|) == z + 56
    ensures Pad(m) == full + (tail + [0x80] + Zeros(z)) + (Zeros(56) + BigEndian(8 * |m|, 8))
  {
    hide PadLength, Zeros, BigEndian;
    ZerosAdd(z, 56);
    TwoBlocksAssoc(full, tail, Zeros(z), Zeros(56), BigEndian(8 * |m|, 8));
  }

  lemma ZerosAdd(n: nat, k: nat)
    ensures Zeros(n + k) == Zeros(n) + Zeros(k)
  {
  }

  lemma OneBlockAssoc(full: Bytes, tail: Bytes, z: Bytes, len: Bytes)
    ensures full + tail + [0x80] + z + len == full + (tail + [0x80] + z + len)
  {
    AppendAssoc(full, tail, [0x80]);
    AppendAssoc(full, tail + [0x80], z);
    AppendAssoc(full, tail + [0x80] + z, len);
  }

  lemma TwoBlocksAssoc(full: Bytes, tail: Bytes, z1: Bytes, z2: Bytes, len: Bytes)
    ensures full + tail + [0x80] + (z1 + z2) + len == full + (tail + [0x80] + z1) + (z2 + len)
  {
    AppendAssoc(full, tail, [0x80]);
    AppendAssoc(full + tail + [0x80], z1, z2);
    AppendAssoc(full, tail + [0x80], z1);
    AppendAssoc(full + (tail + [0x80] + z1), z2, len);
  }

  lemma AppendAssoc(a: Bytes, b: Bytes, c: Bytes)
    ensures a + b + c == a + (b + c)
  {
  }

  lemma NothingAbsorbed()
    ensures Full([]) == [] && Tail([]) == [] && forall h: Eight :: Fold(h, []) == h
  {
  }

  // Absorbing a chunk that does not fill the buffer, or exactly fills it.

  lemma AbsorbPart(m: Bytes, chunk: Bytes)
    requires |m| % 64 + |chunk| < 64
    ensures Full(m + chunk) == Full(m) && Tail(m + chunk) == Tail(m) + chunk
    ensures |m + chunk| % 64 == |m| % 64 + |chunk|
  {
    assert |m + chunk| % 64 == |m| % 64 + |chunk|;
  }

  lemma AbsorbBlock(m: Bytes, chunk: Bytes)
    requires |m| % 64 + |chunk| == 64
    ensures Full(m + chunk) == Full(m) + (Tail(m) + chunk) && Tail(m + chunk) == []
    ensures |m + chunk| % 64 == 0
  {
    assert |m + chunk| % 64 == 0;
    FullAndTail(m);
    AppendAssoc(Full(m), Tail(m), chunk);
  }
}

/** The streaming hash object of `include/sero/security/sha256.hpp`. */
module Sha256 {
  import opened Words
  import opened Sha256Spec

  class Sha256 {
    const state: array<Word>
    const buf: array<u8>
    var bufLen: nat
    var count: u64
    ghost var absorbed: Bytes

    ghost predicate Shape() {
      state.Length == 8 && buf.Length == 64
    }

    /** The state is the fold over all full blocks seen, the buffer is the remainder. */
    ghost predicate Valid()
      reads this, state, buf
    {
      && Shape()
      && bufLen == |absorbed| % 64
      && count == |absorbed| % 0x1_0000_0000_0000_0000
      && buf[..bufLen] == Tail(absorbed)
      && Loaded(state[..]) == Fold(H0, Full(absorbed))
    }

    static function Loaded(s: seq<Word>): Eight
      requires |s| == 8
    {
      Eight(s[0], s[1], s[2], s[3], s[4], s[5], s[6], s[7])
    }

    constructor ()
      ensures Valid() && absorbed == [] && fresh(state) && fresh(buf)
    {
      state := new Word[8];
      buf := new u8[64](_ => 0);
      bufLen := 0;
      count := 0;
      absorbed := [];
      new;
      Reset();
    }

    method Reset()
      requires Shape()
      modifies this, state
      ensures Valid() && absorbed == []
    {
      hide Full, Tail, Fold;
      NothingAbsorbed();
      state[0], state[1], state[2], state[3] := H0.a, H0.b, H0.c, H0.d;
      state[4], state[5], state[6], state[7] := H0.e, H0.f, H0.g, H0.h;
      count, bufLen, absorbed := 0, 0, [];
    }

    /** Absorbs `data`, a full buffer at a time, whatever was buffered before. */
    method Update(data: Bytes)
      requires Valid()
      modifies this, state, buf
      ensures Valid() && absorbed == old(absorbed) + data
    {
      hide Full, Tail, Fold;
      var pos := 0;
      assert absorbed == absorbed + data[..0];
      while pos < |data|
        invariant pos <= |data| && Valid()
        invariant absorbed == old(absorbed) + data[..pos]
      {
        var space := 64 - bufLen;
        var n := if |data| - pos < space then |data| - pos else space;
        Fill(data[pos..pos + n]);
        SplitAt(old(absorbed), data, pos, pos + n);
        pos := pos + n;
      }
      assert data[..pos] == data;
    }

    static lemma SplitAt(a: Bytes, data: Bytes, i: nat, j: nat)
      requires i <= j <= |data|
      ensures a + data[..i] + data[i..j] == a + data[..j]
    {
      assert data[..j] == data[..i] + data[i..j];
    }

    /** The loop body of `Update`: one chunk that fits the buffer. */
    method Fill(chunk: Bytes)
      requires Valid() && 0 < |chunk| <= 64 - bufLen
      modifies this, state, buf
      ensures Valid() && absorbed == old(absorbed) + chunk
    {
      hide Compress, Full, Tail, Fold;
      ghost var m := absorbed;
      FullAndTail(m);
      CountWraps(|m|, |chunk|);
      CopyIn(chunk);
      count := (count + |chunk|) % 0x1_0000_0000_0000_0000;
      absorbed := absorbed + chunk;
      if bufLen == 64 {
        AbsorbBlock(m, chunk);
        FoldBlock(H0, Full(m), buf[..]);
        Transform();
        bufLen := 0;
      } else {
        AbsorbPart(m, chunk);
      }
    }

    /** `memcpy` behind the bytes already buffered. */
    method CopyIn(chunk: Bytes)
      requires Shape() && bufLen + |chunk| <= 64
      modifies this`bufLen, buf
      ensures bufLen == old(bufLen) + |chunk|
      ensures buf[..bufLen] == old(buf[..bufLen]) + chunk
      ensures bufLen == 64 ==> buf[..] == old(buf[..bufLen]) + chunk
    {
      forall i | 0 <= i < |chunk| {
        buf[bufLen + i] := chunk[i];
      }
      bufLen := bufLen + |chunk|;
    }

    static lemma CountWraps(n: nat, k: nat)
      ensures (n % 0x1_0000_0000_0000_0000 + k) % 0x1_0000_0000_0000_0000 == (n + k) % 0x1_0000_0000_0000_0000
    {
    }

    /** One application of the compression function to the buffer. */
    method Transform()
      requires Shape()
      modifies state
      ensures Loaded(state[..]) == Compress(old(Loaded(state[..])), buf[..])
    {
      hide Add, Rounds;
      var w := ExpandSchedule();
      var v := RunRounds(w);
      state[0], state[1] := Add(state[0], v.a), Add(state[1], v.b);
      state[2], state[3] := Add(state[2], v.c), Add(state[3], v.d);
      state[4], state[5] := Add(state[4], v.e), Add(state[5], v.f);
      state[6], state[7] := Add(state[6], v.g), Add(state[7], v.h);
    }

    /** The third loop of `Transform`. */
    method RunRounds(w: array<Word>) returns (v: Eight)
      requires Shape() && w.Length == 64 && forall t :: 0 <= t < 64 ==> w[t] == W(buf[..], t)
      ensures v == Rounds(Loaded(state[..]), buf[..], 64)
    {
      hide Add, BigSigma0, BigSigma1, Ch, Maj, W;
      var a, b, c, d := state[0], state[1], state[2], state[3];
      var e, f, g, h := state[4], state[5], state[6], state[7];
      for i := 0 to 64
        invariant Eight(a, b, c, d, e, f, g, h) == Rounds(Loaded(state[..]), buf[..], i)
      {
        var t1 := Add(Add(Add(Add(h, BigSigma1(e)), Ch(e, f, g)), K[i]), w[i]);
        var t2 := Add(BigSigma0(a), Maj(a, b, c));
        h := g;
        g := f;
        f := e;
        e := Add(d, t1);
        d := c;
        c := b;
        b := a;
        a := Add(t1, t2);
      }
      v := Eight(a, b, c, d, e, f, g, h);
    }

    /** The first two loops of `Transform`. */
    method ExpandSchedule() returns (w: array<Word>)
      requires Shape()
      ensures fresh(w) && w.Length == 64 && forall t :: 0 <= t < 64 ==> w[t] == W(buf[..], t)
    {
      hide Add, SmallSigma0, SmallSigma1, BigEndianWord, W;
      w := new Word[64];
      ghost var m: Block := buf[..];
      for i := 0 to 16
        invariant forall t :: 0 <= t < i ==> w[t] == W(m, t)
      {
        ScheduleStart(m, i);
        w[i] := BigEndianWord(buf[i * 4 + 0], buf[i * 4 + 1], buf[i * 4 + 2], buf[i * 4 + 3]);
      }
      for i := 16 to 64
        invariant forall t :: 0 <= t < i ==> w[t] == W(m, t)
      {
        ScheduleStep(m, i);
        w[i] := Add(Add(Add(SmallSigma1(w[i - 2]), w[i - 7]), SmallSigma0(w[i - 15])), w[i - 16]);
      }
    }

    /** Writes the digest of everything absorbed. */
    method Finalize(out: array<u8>)
      requires Valid() && |absorbed| < 0x2000_0000_0000_0000
      requires out.Length >= 32 && out != buf
      modifies this, state, buf, out
      ensures out[..32] == Digest(old(absorbed)) && out[32..] == old(out[32..])
    {
      hide Full, Tail, Fold, Pad, HashBytes;
      AddPadding();
      WriteDigest(out);
    }

    /** The first half of `Finalize`: the marker, the zeros and the length. */
    method AddPadding()
      requires Valid() && |absorbed| < 0x2000_0000_0000_0000
      modifies this, state, buf
      ensures Loaded(state[..]) == Fold(H0, Pad(old(absorbed)))
    {
      hide Compress, Full, Tail, Fold, Zeros, BigEndian, Pad;
      ghost var m := absorbed;
      FullAndTail(m);
      var totalBits := (count * 8) % 0x1_0000_0000_0000_0000;
      assert totalBits == 8 * |m|;
      buf[bufLen] := 0x80;
      bufLen := bufLen + 1;
      assert buf[..bufLen] == Tail(m) + [0x80];
      if bufLen > 56 {
        ZeroTo(64);
        assert buf[..] == buf[..64];
        ghost var block1 := buf[..];
        FoldBlock(H0, Full(m), block1);
        Transform();
        bufLen := 0;
        LastBlock(totalBits);
        assert [] + Zeros(56) == Zeros(56);
        FoldBlock(H0, Full(m) + block1, buf[..]);
        TwoLastBlocks(m);
      } else {
        LastBlock(totalBits);
        FoldBlock(H0, Full(m), buf[..]);
        OneLastBlock(m);
      }
    }

    /** Zeros up to the length field, the length, and the last compression. */
    method LastBlock(totalBits: u64)
      requires Shape() && bufLen <= 56
      modifies this`bufLen, buf, state
      ensures buf[..] == old(buf[..bufLen]) + Zeros(56 - old(bufLen)) + BigEndian(totalBits, 8)
      ensures Loaded(state[..]) == Compress(old(Loaded(state[..])), buf[..])
    {
      hide Compress, Zeros, BigEndian;
      ZeroTo(56);
      WriteLength(totalBits);
      Transform();
    }

    method ZeroTo(end: nat)
      requires Shape() && bufLen <= end <= 64
      modifies this`bufLen, buf
      ensures bufLen == end && buf[..end] == old(buf[..bufLen]) + Zeros(end - old(bufLen))
    {
      ghost var start := bufLen;
      while bufLen < end
        invariant start <= bufLen <= end
        invariant buf[..start] == old(buf[..bufLen])
        invariant forall k :: start <= k < bufLen ==> buf[k] == 0
      {
        buf[bufLen] := 0;
        bufLen := bufLen + 1;
      }
      assert buf[..end] == buf[..start] + buf[start..end];
    }

    /** The length in bits, big-endian, behind the 56th byte. */
    method WriteLength(totalBits: u64)
      requires Shape() && bufLen == 56
      modifies this`bufLen, buf
      ensures bufLen == 64 && buf[..] == old(buf[..56]) + BigEndian(totalBits, 8)
    {
      hide BigEndian, ShiftBytes;
      for i := 8 downto 0
        invariant bufLen == 64 - i
        invariant buf[..56] == old(buf[..56])
        invariant forall k :: 56 <= k < bufLen ==> buf[k] == BigEndian(totalBits, 8)[k - 56]
      {
        BigEndianAt(totalBits, 8, 7 - i);
        buf[bufLen] := ShiftBytes(totalBits, i) % 256;
        bufLen := bufLen + 1;
      }
      assert buf[..] == buf[..56] + buf[56..];
      assert buf[56..] == BigEndian(totalBits, 8);
    }

    method WriteDigest(out: array<u8>)
      requires Shape() && out.Length >= 32 && out != buf
      modifies out
      ensures out[..32] == HashBytes(Loaded(state[..])) && out[32..] == old(out[32..])
    {
      hide WordBytes;
      for i := 0 to 8
        invariant out[..4 * i] == WordsBytes(state[..i])
        invariant out[32..] == old(out[32..])
      {
        var b := WordBytes(state[i]);
        ghost var before := out[..4 * i];
        out[i * 4 + 0], out[i * 4 + 1], out[i * 4 + 2], out[i * 4 + 3] := b[0], b[1], b[2], b[3];
        assert out[..4 * i] == before;
        assert out[..4 * (i + 1)] == before + b;
        assert state[..i + 1][..i] == state[..i];
      }
      assert state[..8] == state[..];
      EightWords(state[..]);
    }

    static ghost function WordsBytes(s: seq<Word>): Bytes {
      if s == [] then [] else WordsBytes(s[..|s| - 1]) + WordBytes(s[|s| - 1])
    }

    static lemma EightWords(s: seq<Word>)
      requires |s| == 8
      ensures WordsBytes(s) == HashBytes(Loaded(s))
    {
      hide WordBytes;
      assert WordsBytes(s[..0]) == [];
      forall i | 0 < i <= 8
        ensures WordsBytes(s[..i]) == WordsBytes(s[..i - 1]) + WordBytes(s[i - 1])
      {
        assert s[..i][..i - 1] == s[..i - 1];
      }
      assert s == s[..8];
      assert WordsBytes(s[..4]) == WordBytes(s[0]) + WordBytes(s[1]) + WordBytes(s[2]) + WordBytes(s[3]) by {
        assert WordsBytes(s[..1]) == WordBytes(s[0]);
        assert WordsBytes(s[..2]) == WordBytes(s[0]) + WordBytes(s[1]);
        assert WordsBytes(s[..3]) == WordBytes(s[0]) + WordBytes(s[1]) + WordBytes(s[2]);
      }
      assert WordsBytes(s[..5]) == WordsBytes(s[..4]) + WordBytes(s[4]);
      assert WordsBytes(s[..6]) == WordsBytes(s[..5]) + WordBytes(s[5]);
      assert WordsBytes(s[..7]) == WordsBytes(s[..6]) + WordBytes(s[6]);
      assert WordsBytes(s[..8]) == WordsBytes(s[..7]) + WordBytes(s[7]);
    }

    /** Hash in one shot. */
    static method Hash(data: Bytes, out: array<u8>)
      requires |data| < 0x2000_0000_0000_0000 && out.Length >= 32
      modifies out
      ensures out[..32] == Digest(data) && out[32..] == old(out[32..])
    {
      hide Digest, Full, Tail, Fold;
      var ctx := new Sha256();
      ctx.Update(data);
      assert [] + data == data;
      ctx.Finalize(out);
    }
  }

  function Concat(chunks: seq<Bytes>): Bytes {
    if chunks == [] then [] else Concat(chunks[..|chunks| - 1]) + chunks[|chunks| - 1]
  }

  /** However a message is split into updates, the digest is that of the whole message. */
  method HashChunks(chunks: seq<Bytes>) returns (digest: Bytes)
    requires |Concat(chunks)| < 0x2000_0000_0000_0000
    ensures digest == Digest(Concat(chunks))
  {
    hide Digest, Full, Tail, Fold;
    var ctx := new Sha256();
    for i := 0 to |chunks|
      invariant ctx.Valid() && fresh(ctx) && fresh(ctx.state) && fresh(ctx.buf)
      invariant ctx.absorbed == Concat(chunks[..i])
    {
      ctx.Update(chunks[i]);
      assert chunks[..i + 1][..i] == chunks[..i];
    }
    assert chunks[..|chunks|] == chunks;
    var out := new u8[32](_ => 0);
    ctx.Finalize(out);
    digest := out[..32];
  }
}
