/** CRC-16/CCITT-FALSE (`include/sero/security/crc16.hpp`).

The reference is the one-bit-at-a-time shift register with polynomial 0x1021 and
initial value 0xFFFF. The program uses a 256-entry table and a byte at a time.
*/
module Crc16 {
  import opened Words

  const POLY: bv16 := 0x1021
  const INIT: bv16 := 0xFFFF

  function Xor(a: bv16, b: bv16): bv16 {
    a ^ b
  }

  function Double(a: bv16): bv16 {
    a << 1
  }

  predicate Top(a: bv16) {
    a & 0x8000 != 0
  }

  // ------------------------------------------------ reference: bit-serial register

  /** One clock of the register while message bit `m` enters. */
  function Clock(c: bv16, m: bool): bv16 {
    if Top(c) != m then Xor(Double(c), POLY) else Double(c)
  }

  function Register(c: bv16, bits: seq<bool>): bv16
    decreases |bits|
  {
    if bits == [] then c else Register(Clock(c, bits[0]), bits[1..])
  }

  /** The top `n` bits of `w`, most significant first. */
  function TopBits(w: bv16, n: nat): (bits: seq<bool>)
    ensures |bits| == n
    decreases n
  {
    if n == 0 then [] else [Top(w)] + TopBits(Double(w), n - 1)
  }

  /** A byte in the upper half of the register. */
  function High(b: u8): bv16 {
    Upper(Bv8(b))
  }

  function Upper(b: bv8): bv16 {
    (b as bv16) << 8
  }

  /** The bits of a byte, most significant first. */
  function ByteBits(b: u8): (bits: seq<bool>)
    ensures |bits| == 8
  {
    TopBits(High(b), 8)
  }

  function Bits(data: Bytes): (bits: seq<bool>)
    ensures |bits| == 8 * |data|
  {
    if data == [] then [] else Bits(data[..|data| - 1]) + ByteBits(data[|data| - 1])
  }

  /** The checksum: the register after all bits of the message. */
  function Crc(data: Bytes): bv16 {
    Register(INIT, Bits(data))
  }

  /** A frame the receiver's checksum test should let through. */
  predicate Valid(frame: Bytes) {
    |frame| >= 2 && Crc(frame) == 0
  }

  // ----------------------------------------------------------- the program's code

  /** `n` steps of the table's inner loop: no message bit enters. */
  function Shifts(c: bv16, n: nat): bv16
    decreases n
  {
    if n == 0 then c else Shifts(Clock(c, false), n - 1)
  }

  ghost predicate IsTable(t: seq<bv16>) {
    |t| == 256 && forall i: u8 :: t[i] == Shifts(High(i), 8)
  }

  method BuildTable() returns (entries: array<bv16>)
    ensures fresh(entries) && IsTable(entries[..])
  {
    entries := new bv16[256];
    for i := 0 to 256
      invariant forall k: u8 :: k < i ==> entries[k] == Shifts(High(k), 8)
    {
      var crc := High(i);
      for j := 0 to 8
        invariant Shifts(crc, 8 - j) == Shifts(High(i), 8)
      {
        if Top(crc) {
          crc := Xor(Double(crc), POLY);
        } else {
          crc := Double(crc);
        }
      }
      entries[i] := crc;
    }
  }

  /** `static_cast<uint8_t>((crc >> 8) ^ data[i])`. */
  function Index(crc: bv16, b: u8): u8 {
    IndexBits(crc, Bv8(b)) as u8
  }

  function IndexBits(crc: bv16, b: bv8): bv8 {
    ((crc >> 8) as bv8) ^ b
  }

  function LowToHigh(crc: bv16): bv16 {
    crc << 8
  }

  /** The table-driven loop computes the bit-serial checksum of the first `length` bytes. */
  method Compute(entries: array<bv16>, data: array<u8>, length: nat) returns (crc: bv16)
    requires IsTable(entries[..]) && length <= data.Length
    ensures crc == Crc(data[..length])
  {
    hide Xor, High, LowToHigh, Index, Shifts;
    crc := INIT;
    assert data[..0] == [];
    for i := 0 to length
      invariant crc == Crc(data[..i])
    {
      var idx := Index(crc, data[i]);
      TableStep(crc, data[i]);
      assert entries[idx] == entries[..][idx];
      crc := Xor(LowToHigh(crc), entries[idx]);
      CrcSnoc(data[..i], data[i]);
      assert data[..i + 1] == data[..i] + [data[i]];
    }
  }

  function HighByte(crc: bv16): u8 {
    (crc >> 8) as bv8 as u8
  }

  function LowByte(crc: bv16): u8 {
    (crc & 0x00FF) as bv8 as u8
  }

  /** `(hi << 8) | lo`. */
  function Joined(hi: u8, lo: u8): bv16 {
    High(hi) | (Bv8(lo) as bv16)
  }

  /** Writes the two checksum bytes, high byte first, behind the data. */
  method Append(entries: array<bv16>, buffer: array<u8>, length: nat)
    requires IsTable(entries[..]) && length + 2 <= buffer.Length
    modifies buffer
    ensures buffer[..length + 2] == Sealed(old(buffer[..length]))
    ensures buffer[length + 2..] == old(buffer[length + 2..])
  {
    hide HighByte, LowByte;
    var crc := Compute(entries, buffer, length);
    buffer[length] := HighByte(crc);
    buffer[length + 1] := LowByte(crc);
    assert buffer[..length + 2] == old(buffer[..length]) + [HighByte(crc), LowByte(crc)];
  }

  /** A message with its checksum bytes behind it. */
  function Sealed(data: Bytes): (frame: Bytes)
    ensures |frame| == |data| + 2
  {
    data + [HighByte(Crc(data)), LowByte(Crc(data))]
  }

  /** Accepts exactly the frames of at least two bytes whose checksum, taken over the
      whole frame including its trailer, is zero. */
  method Verify(entries: array<bv16>, data: array<u8>, length: nat) returns (ok: bool)
    requires IsTable(entries[..]) && length <= data.Length
    ensures ok <==> Valid(data[..length])
  {
    hide Joined;
    if length < 2 {
      return false;
    }
    var n := length - 2;
    var computed := Compute(entries, data, n);
    var stored := Joined(data[n], data[n + 1]);
    ok := computed == stored;
    assert data[..length] == data[..n] + [data[n], data[n + 1]];
    TrailerMatches(data[..n], data[n], data[n + 1]);
  }

  // -------------------------------------------------------- facts about bit-vectors

  lemma XorTop(a: bv16, b: bv16)
    ensures Top(Xor(a, b)) <==> Top(a) != Top(b)
  {
    assert (a ^ b) & 0x8000 == (a & 0x8000) ^ (b & 0x8000);
    TopBit(a);
    TopBit(b);
  }

  lemma TopBit(a: bv16)
    ensures a & 0x8000 == 0 || a & 0x8000 == 0x8000
  {
  }

  lemma XorDouble(a: bv16, b: bv16)
    ensures Double(Xor(a, b)) == Xor(Double(a), Double(b))
  {
  }

  lemma XorAssoc(a: bv16, b: bv16, c: bv16)
    ensures Xor(Xor(a, b), c) == Xor(a, Xor(b, c))
  {
  }

  lemma XorComm(a: bv16, b: bv16)
    ensures Xor(a, b) == Xor(b, a)
  {
  }

  lemma XorZero(a: bv16)
    ensures Xor(a, 0) == a
  {
  }

  lemma XorSelf(a: bv16, b: bv16)
    ensures Xor(a, b) == 0 <==> a == b
  {
    hide Xor;
    XorSame(a);
    XorTwice(a, b);
    XorComm(0, b);
    XorZero(b);
  }

  lemma XorSame(a: bv16)
    ensures Xor(a, a) == 0
  {
  }

  lemma XorTwice(a: bv16, b: bv16)
    ensures Xor(Xor(a, b), b) == a
  {
  }

  lemma XorPoly(a: bv16, b: bv16)
    ensures Xor(Xor(a, POLY), Xor(b, POLY)) == Xor(a, b)
  {
  }

  lemma XorPolyLeft(a: bv16, b: bv16)
    ensures Xor(Xor(a, POLY), b) == Xor(Xor(a, b), POLY)
  {
  }

  lemma XorPolyRight(a: bv16, b: bv16)
    ensures Xor(a, Xor(b, POLY)) == Xor(Xor(a, b), POLY)
  {
  }

  // ------------------------------------------------------- linearity of the register

  /** The register is linear over exclusive or. */
  lemma ClockLinear(a: bv16, b: bv16, m: bool, n: bool)
    ensures Clock(Xor(a, b), m != n) == Xor(Clock(a, m), Clock(b, n))
  {
    hide Xor, Double, Top;
    XorTop(a, b);
    XorDouble(a, b);
    XorPoly(Double(a), Double(b));
    XorPolyLeft(Double(a), Double(b));
    XorPolyRight(Double(a), Double(b));
  }

  lemma {:induction false} ShiftsLinear(a: bv16, b: bv16, n: nat)
    ensures Shifts(Xor(a, b), n) == Xor(Shifts(a, n), Shifts(b, n))
    decreases n
  {
    hide Xor, Clock;
    if n > 0 {
      ClockLinear(a, b, false, false);
      ShiftsLinear(Clock(a, false), Clock(b, false), n - 1);
    }
  }

  lemma {:induction false} RegisterConcat(c: bv16, a: seq<bool>, b: seq<bool>)
    ensures Register(c, a + b) == Register(Register(c, a), b)
    decreases |a|
  {
    hide Clock;
    if a == [] {
      assert a + b == b;
    } else {
      assert (a + b)[1..] == a[1..] + b;
      RegisterConcat(Clock(c, a[0]), a[1..], b);
    }
  }

  lemma CrcSnoc(data: Bytes, b: u8)
    ensures Crc(data + [b]) == Register(Crc(data), ByteBits(b))
  {
    hide ByteBits;
    assert (data + [b])[..|data|] == data;
    RegisterConcat(INIT, Bits(data), ByteBits(b));
  }

  // --------------------------------------------------------- table against register

  /** `w` shifted left `n` times. */
  function Left(w: bv16, n: nat): bv16
    decreases n
  {
    if n == 0 then w else Left(Double(w), n - 1)
  }

  /** Feeding the top bits of `w` one by one is adding `w` first and then shifting. */
  lemma {:induction false} Feed(c: bv16, w: bv16, n: nat)
    requires Left(w, n) == 0
    ensures Register(c, TopBits(w, n)) == Shifts(Xor(c, w), n)
    decreases n
  {
    hide Xor, Double, Top;
    if n == 0 {
      XorZero(c);
    } else {
      XorTop(c, w);
      XorDouble(c, w);
      XorPolyLeft(Double(c), Double(w));
      assert Clock(Xor(c, w), false) == Xor(Clock(c, Top(w)), Double(w));
      assert TopBits(w, n)[1..] == TopBits(Double(w), n - 1);
      Feed(Clock(c, Top(w)), Double(w), n - 1);
    }
  }

  /** A value in the lower half never feeds back while it is shifted eight times. */
  lemma BvEightSteps(x: bv16)
    ensures x << 1 << 1 << 1 << 1 << 1 << 1 << 1 << 1 == x << 8
    ensures x & 0xFF00 == 0 ==>
      && x & 0x8000 == 0 && (x << 1) & 0x8000 == 0
      && (x << 1 << 1) & 0x8000 == 0 && (x << 1 << 1 << 1) & 0x8000 == 0
      && (x << 1 << 1 << 1 << 1) & 0x8000 == 0 && (x << 1 << 1 << 1 << 1 << 1) & 0x8000 == 0
      && (x << 1 << 1 << 1 << 1 << 1 << 1) & 0x8000 == 0
      && (x << 1 << 1 << 1 << 1 << 1 << 1 << 1) & 0x8000 == 0
  {
  }

  lemma EightSteps(x: bv16)
    ensures Left(x, 8) == LowToHigh(x)
    ensures x & 0xFF00 == 0 ==> Shifts(x, 8) == LowToHigh(x)
  {
    var x1 := Double(x);
    var x2 := Double(x1);
    var x3 := Double(x2);
    var x4 := Double(x3);
    var x5 := Double(x4);
    var x6 := Double(x5);
    var x7 := Double(x6);
    assert Double(x7) == LowToHigh(x) && (x & 0xFF00 == 0 ==>
      !Top(x) && !Top(x1) && !Top(x2) && !Top(x3) && !Top(x4) && !Top(x5) && !Top(x6) && !Top(x7)) by {
      BvEightSteps(x);
    }
    EightStepsUnfold(x, x1, x2, x3, x4, x5, x6, x7);
  }

  lemma EightStepsUnfold(x: bv16, x1: bv16, x2: bv16, x3: bv16, x4: bv16, x5: bv16, x6: bv16, x7: bv16)
    requires x1 == Double(x) && x2 == Double(x1) && x3 == Double(x2) && x4 == Double(x3)
    requires x5 == Double(x4) && x6 == Double(x5) && x7 == Double(x6)
    ensures Left(x, 8) == Double(x7)
    ensures !Top(x) && !Top(x1) && !Top(x2) && !Top(x3) && !Top(x4) && !Top(x5) && !Top(x6) && !Top(x7)
      ==> Shifts(x, 8) == Double(x7)
  {
    hide Xor, Double, Top;
    assert Left(x, 8) == Left(x1, 7) == Left(x2, 6) == Left(x3, 5) == Left(x4, 4);
    assert Left(x4, 4) == Left(x5, 3) == Left(x6, 2) == Left(x7, 1) == Left(Double(x7), 0);
    if !Top(x) && !Top(x1) && !Top(x2) && !Top(x3) && !Top(x4) && !Top(x5) && !Top(x6) && !Top(x7) {
      assert Shifts(x, 8) == Shifts(x1, 7) == Shifts(x2, 6) == Shifts(x3, 5) == Shifts(x4, 4);
      assert Shifts(x4, 4) == Shifts(x5, 3) == Shifts(x6, 2) == Shifts(x7, 1) == Shifts(Double(x7), 0);
    }
  }

  lemma HighIsHigh(b: u8)
    ensures LowToHigh(High(b)) == 0
  {
    BvHigh(Bv8(b));
  }

  lemma BvHigh(b: bv8)
    ensures ((b as bv16) << 8) << 8 == 0
  {
  }

  /** Feeding a byte adds it to the upper half and shifts eight times. */
  lemma FeedByte(c: bv16, b: u8)
    ensures Register(c, ByteBits(b)) == Shifts(Xor(c, High(b)), 8)
  {
    hide Xor, Double, Top, High, LowToHigh;
    HighIsHigh(b);
    EightSteps(High(b));
    Feed(c, High(b), 8);
  }

  /** The identity behind the table. */
  lemma TableStep(crc: bv16, b: u8)
    ensures Xor(LowToHigh(crc), Shifts(High(Index(crc, b)), 8)) == Register(crc, ByteBits(b))
  {
    hide Xor, High, LowToHigh, Index, Shifts, Register;
    var low := Low(crc);
    SplitCrc(crc, b);
    FeedByte(crc, b);
    ShiftsLinear(High(Index(crc, b)), low, 8);
    LowHalf(crc);
    XorComm(Shifts(High(Index(crc, b)), 8), LowToHigh(crc));
  }

  function Low(crc: bv16): bv16 {
    crc & 0x00FF
  }

  lemma LowHalf(crc: bv16)
    ensures Shifts(Low(crc), 8) == LowToHigh(crc)
  {
    BvLow(crc);
    EightSteps(Low(crc));
  }

  lemma BvLow(crc: bv16)
    ensures (crc & 0x00FF) & 0xFF00 == 0
    ensures (crc & 0x00FF) << 8 == crc << 8
  {
  }

  lemma SplitCrc(crc: bv16, b: u8)
    ensures Xor(crc, High(b)) == Xor(High(Index(crc, b)), Low(crc))
  {
    hide Bv8, Upper, Xor, Low, IndexBits;
    IndexRoundTrip(crc, b);
    BvSplit(crc, Bv8(b));
  }

  lemma IndexRoundTrip(crc: bv16, b: u8)
    ensures Bv8(Index(crc, b)) == IndexBits(crc, Bv8(b))
  {
    hide IndexBits;
    BvIntBv(IndexBits(crc, Bv8(b)));
  }

  lemma BvSplit(crc: bv16, b: bv8)
    ensures Xor(crc, Upper(b)) == Xor(Upper(IndexBits(crc, b)), Low(crc))
  {
    assert crc ^ ((b as bv16) << 8) == ((((crc >> 8) as bv8) ^ b) as bv16 << 8) ^ (crc & 0x00FF);
  }

  // ------------------------------------------------ the trailer closes the register

  /** The register only returns to zero from zero. */
  lemma {:induction false} ShiftsZero(c: bv16, n: nat)
    ensures Shifts(c, n) == 0 <==> c == 0
    decreases n
  {
    if n > 0 {
      ClockZero(c);
      ShiftsZero(Clock(c, false), n - 1);
    }
  }

  lemma ClockZero(c: bv16)
    ensures Clock(c, false) == 0 <==> c == 0
  {
    BvOdd(c);
    BvTopOnly(c);
  }

  lemma BvOdd(c: bv16)
    ensures (c << 1) ^ 0x1021 != 0
    ensures ((c << 1) ^ 0x1021) & 1 == 1
    ensures (c << 1) & 1 == 0
  {
  }

  lemma BvTopOnly(c: bv16)
    ensures c & 0x8000 == 0 && c << 1 == 0 ==> c == 0
  {
  }

  /** Two bytes bring the register to zero exactly when they spell its value. */
  lemma TrailerMatches(data: Bytes, hi: u8, lo: u8)
    ensures Crc(data + [hi, lo]) == 0 <==> Crc(data) == Joined(hi, lo)
  {
    hide Xor, High, Joined, Shifts, Register, ByteBits, LowToHigh, Low;
    var c := Crc(data);
    var mid := Register(c, ByteBits(hi));
    assert data + [hi, lo] == (data + [hi]) + [lo];
    CrcSnoc(data, hi);
    CrcSnoc(data + [hi], lo);
    FeedByte(c, hi);
    FeedByte(mid, lo);
    ShiftsZero(Xor(mid, High(lo)), 8);
    XorSelf(mid, High(lo));
    var w := Joined(hi, lo);
    // mid == High(lo) says Shifts(c ^ High(hi), 8) == Shifts(lo, 8)
    JoinedParts(hi, lo);
    LowHalf(w);
    var x, y := Xor(c, High(hi)), Low(w);
    ShiftsLinear(x, y, 8);
    ShiftsZero(Xor(x, y), 8);
    XorSelf(Shifts(x, 8), Shifts(y, 8));
    XorAssoc(c, High(hi), y);
    XorSelf(c, w);
  }

  lemma JoinedParts(hi: u8, lo: u8)
    ensures Xor(High(hi), Low(Joined(hi, lo))) == Joined(hi, lo)
    ensures LowToHigh(Joined(hi, lo)) == High(lo)
  {
    hide Bv8;
    BvJoined(Bv8(hi), Bv8(lo));
  }

  lemma BvJoined(hi: bv8, lo: bv8)
    ensures ((hi as bv16) << 8) ^ ((((hi as bv16) << 8) | (lo as bv16)) & 0x00FF) == ((hi as bv16) << 8) | (lo as bv16)
    ensures (((hi as bv16) << 8) | (lo as bv16)) << 8 == (lo as bv16) << 8
  {
  }

  /** What `Append` writes, `Verify` accepts. */
  lemma SealedIsValid(data: Bytes)
    ensures Valid(Sealed(data))
  {
    hide Joined, HighByte, LowByte, Register;
    TrailerMatches(data, HighByte(Crc(data)), LowByte(Crc(data)));
    BytesJoin(Crc(data));
  }

  lemma BytesJoin(crc: bv16)
    ensures Joined(HighByte(crc), LowByte(crc)) == crc
  {
    BvIntBv((crc >> 8) as bv8);
    BvIntBv((crc & 0x00FF) as bv8);
    BvRejoin(crc);
  }

  lemma BvRejoin(crc: bv16)
    ensures (((crc >> 8) as bv8 as bv16) << 8) | ((crc & 0x00FF) as bv8 as bv16) == crc
  {
  }

  // ---------------------------------------------------------------- error detection

  /** All differences between two bit strings lie within a window of 16 bits. */
  ghost predicate DifferInWindow(a: seq<bool>, b: seq<bool>, start: nat) {
    && |a| == |b|
    && forall i :: 0 <= i < |a| && !(start <= i < start + 16) ==> a[i] == b[i]
  }

  /** Backwards from zero: if `n < 16` more clocks can clear the register, whatever bits
      enter, then the low `16 - n` bits are already zero and no feedback happens. */
  lemma {:induction false} Backwards(d: bv16, e: seq<bool>)
    requires |e| <= 15 && Register(d, e) == 0
    ensures Left(d, |e|) == 0
    decreases |e|
  {
    if e != [] {
      var d' := Clock(d, e[0]);
      Backwards(d', e[1..]);
      LowBitClear(d', |e| - 1);
      NoFeedback(d, e[0]);
    }
  }

  lemma NoFeedback(d: bv16, m: bool)
    requires Clock(d, m) & 1 == 0
    ensures Clock(d, m) == Double(d)
  {
    BvOdd(d);
  }

  lemma LowBitClear(d: bv16, n: nat)
    requires n <= 15 && Left(d, n) == 0
    ensures d & 1 == 0
  {
    if d & 1 != 0 {
      BvLowBit(d);
      BitsMove(d, 1, n);
      OneStays(n);
    }
  }

  lemma BvLowBit(d: bv16)
    ensures d & 1 == 0 || d & 1 == 1
  {
  }

  lemma {:induction false} BitsMove(d: bv16, m: bv16, n: nat)
    requires d & m == m
    ensures Left(d, n) & Left(m, n) == Left(m, n)
    decreases n
  {
    if n > 0 {
      BvMove(d, m);
      BitsMove(Double(d), Double(m), n - 1);
    }
  }

  lemma BvMove(d: bv16, m: bv16)
    requires d & m == m
    ensures (d << 1) & (m << 1) == m << 1
  {
  }

  /** Bit 0 is still there after at most 15 shifts. */
  lemma OneStays(n: nat)
    requires n <= 15
    ensures Left(1, n) != 0 && 0 & Left(1, n) == 0
  {
    LeftCompose(1, n, 15 - n);
    LeftOfZero(15 - n);
    var c: bv16 := 1;
    assert Left(c, 15) == Left(0x80, 8) by { SevenDoubles(); }
    EightSteps(0x80);
    assert LowToHigh(0x80) == 0x8000;
  }

  lemma SevenDoubles()
    ensures Left(1, 15) == Left(0x80, 8)
  {
    assert Left(1, 15) == Left(2, 14) == Left(4, 13) == Left(8, 12);
    assert Left(8, 12) == Left(16, 11) == Left(32, 10) == Left(64, 9) == Left(128, 8);
  }

  lemma LeftCompose(w: bv16, n: nat, k: nat)
    ensures Left(w, n + k) == Left(Left(w, n), k)
    decreases n
  {
    if n > 0 {
      LeftCompose(Double(w), n - 1, k);
    }
  }

  lemma LeftOfZero(n: nat)
    ensures Left(0, n) == 0
  {
  }

  /** Bitwise difference of two bit strings of equal length. */
  function XorBits(a: seq<bool>, b: seq<bool>): (e: seq<bool>)
    requires |a| == |b|
    ensures |e| == |a|
  {
    seq(|a|, i requires 0 <= i < |a| => a[i] != b[i])
  }

  lemma {:induction false} RegisterLinear(c: bv16, d: bv16, a: seq<bool>, b: seq<bool>)
    requires |a| == |b|
    ensures Register(Xor(c, d), XorBits(a, b)) == Xor(Register(c, a), Register(d, b))
    decreases |a|
  {
    hide Xor, Clock;
    if a != [] {
      ClockLinear(c, d, a[0], b[0]);
      assert XorBits(a, b)[1..] == XorBits(a[1..], b[1..]);
      RegisterLinear(Clock(c, a[0]), Clock(d, b[0]), a[1..], b[1..]);
    }
  }

  /** Equal message bits keep different registers different. */
  lemma {:induction false} RegisterInjective(c: bv16, d: bv16, bits: seq<bool>)
    requires Register(c, bits) == Register(d, bits)
    ensures c == d
    decreases |bits|
  {
    hide Xor, Clock;
    if bits != [] {
      var m := bits[0];
      RegisterInjective(Clock(c, m), Clock(d, m), bits[1..]);
      ClockLinear(c, d, m, m);
      XorSelf(Clock(c, m), Clock(d, m));
      ClockZero(Xor(c, d));
      XorSelf(c, d);
    }
  }

  /** A bit string of at most 16 bits that starts with a one never leaves the zero
      register at zero. */
  lemma ShortBurst(e: seq<bool>)
    requires 1 <= |e| <= 16 && e[0]
    ensures Register(0, e) != 0
  {
    assert Clock(0, true) == POLY by { assert Double(0) == 0 && Xor(0, POLY) == POLY; }
    assert POLY & 1 == 1;
    if Register(POLY, e[1..]) == 0 {
      Backwards(POLY, e[1..]);
      LowBitClear(POLY, |e| - 1);
    }
  }

  /** Two bit strings that differ, but only within some 16 consecutive bits, leave
      different registers. */
  lemma BurstChangesRegister(c: bv16, a: seq<bool>, b: seq<bool>, start: nat)
    requires DifferInWindow(a, b, start) && a != b
    ensures Register(c, a) != Register(c, b)
  {
    hide Xor, Clock, Register;
    var p := FirstDifference(a, b);
    var q := if start + 16 < |a| then start + 16 else |a|;
    assert a[..p] == b[..p] && a[q..] == b[q..];
    ThreeParts(c, a, p, q);
    ThreeParts(c, b, p, q);
    var r := Register(c, a[..p]);
    if Register(c, a) == Register(c, b) {
      RegisterInjective(Register(r, a[p..q]), Register(r, b[p..q]), a[q..]);
      RegisterLinear(r, r, a[p..q], b[p..q]);
      XorSelf(r, r);
      XorSelf(Register(r, a[p..q]), Register(r, b[p..q]));
      ShortBurst(XorBits(a[p..q], b[p..q]));
    }
  }

  lemma ThreeParts(c: bv16, a: seq<bool>, p: nat, q: nat)
    requires p <= q <= |a|
    ensures Register(c, a) == Register(Register(Register(c, a[..p]), a[p..q]), a[q..])
  {
    hide Register;
    assert a == a[..p] + (a[p..q] + a[q..]);
    RegisterConcat(c, a[..p], a[p..q] + a[q..]);
    RegisterConcat(Register(c, a[..p]), a[p..q], a[q..]);
  }

  lemma FirstDifference(a: seq<bool>, b: seq<bool>) returns (p: nat)
    requires |a| == |b| && a != b
    ensures p < |a| && a[p] != b[p] && a[..p] == b[..p]
  {
    p := 0;
    while a[p] == b[p]
      invariant p < |a| && a[..p] == b[..p]
      invariant exists i :: p <= i < |a| && a[i] != b[i]
      decreases |a| - p
    {
      p := p + 1;
    }
  }

  /** Any error burst of at most 16 bits, anywhere in a frame of any length and
      including the trailer, is rejected. */
  lemma BurstDetected(sent: Bytes, received: Bytes, start: nat)
    requires Valid(sent) && sent != received
    requires DifferInWindow(Bits(sent), Bits(received), start)
    ensures !Valid(received)
  {
    hide Register;
    if Bits(sent) == Bits(received) {
      BitsInjective(sent, received);
    }
    BurstChangesRegister(INIT, Bits(sent), Bits(received), start);
  }

  /** In particular any change confined to two adjacent bytes. */
  lemma AdjacentBytesDetected(sent: Bytes, received: Bytes, i: nat)
    requires Valid(sent) && sent != received && |sent| == |received|
    requires forall k :: 0 <= k < |sent| && k != i && k != i + 1 ==> sent[k] == received[k]
    ensures !Valid(received)
  {
    forall k | 0 <= k < 8 * |sent| && !(8 * i <= k < 8 * i + 16)
      ensures Bits(sent)[k] == Bits(received)[k]
    {
      BitsAt(sent, k);
      BitsAt(received, k);
    }
    BurstDetected(sent, received, 8 * i);
  }

  lemma {:induction false} BitsAt(data: Bytes, k: nat)
    requires k < 8 * |data|
    ensures Bits(data)[k] == ByteBits(data[k / 8])[k % 8]
    decreases |data|
  {
    hide ByteBits;
    if k < 8 * (|data| - 1) {
      BitsAt(data[..|data| - 1], k);
    }
  }

  lemma {:induction false} BitsInjective(a: Bytes, b: Bytes)
    requires Bits(a) == Bits(b)
    ensures a == b
    decreases |a|
  {
    hide ByteBits;
    if a != [] {
      var n := |a| - 1;
      var x, y := Bits(a[..n]), Bits(b[..n]);
      assert Bits(a)[..8 * n] == x && Bits(b)[..8 * n] == y;
      assert Bits(a)[8 * n..] == ByteBits(a[n]) && Bits(b)[8 * n..] == ByteBits(b[n]);
      BitsInjective(a[..n], b[..n]);
      ByteBitsInjective(a[n], b[n]);
      assert a == a[..n] + [a[n]] && b == b[..n] + [b[n]];
    }
  }

  lemma ByteBitsInjective(a: u8, b: u8)
    requires ByteBits(a) == ByteBits(b)
    ensures a == b
  {
    hide Xor, Double, Top, High, LowToHigh;
    FeedByte(0, a);
    FeedByte(0, b);
    ShiftsLinear(Xor(0, High(a)), Xor(0, High(b)), 8);
    XorSelf(Shifts(Xor(0, High(a)), 8), Shifts(Xor(0, High(b)), 8));
    ShiftsZero(Xor(Xor(0, High(a)), Xor(0, High(b))), 8);
    XorSelf(Xor(0, High(a)), Xor(0, High(b)));
    XorComm(0, High(a));
    XorComm(0, High(b));
    XorZero(High(a));
    XorZero(High(b));
    HighInjective(a, b);
  }

  lemma HighInjective(a: u8, b: u8)
    requires High(a) == High(b)
    ensures a == b
  {
    BvUpper(Bv8(a));
    BvUpper(Bv8(b));
    Bv8Injective(a, b);
  }

  lemma BvUpper(b: bv8)
    ensures (Upper(b) >> 8) as bv8 == b
  {
  }

  // ------------------------------------------------------------------------- parity

  /** Whether the top `n` bits of a word hold an odd number of ones. */
  function OddOnes(c: bv16, n: nat): bool
    decreases n
  {
    if n == 0 then false else Top(c) != OddOnes(Double(c), n - 1)
  }

  function OddBits(bits: seq<bool>): bool {
    if bits == [] then false else bits[0] != OddBits(bits[1..])
  }

  lemma {:induction false} OddOnesLinear(a: bv16, b: bv16, n: nat)
    ensures OddOnes(Xor(a, b), n) <==> OddOnes(a, n) != OddOnes(b, n)
    decreases n
  {
    hide Xor, Double, Top;
    if n > 0 {
      XorTop(a, b);
      XorDouble(a, b);
      OddOnesLinear(Double(a), Double(b), n - 1);
    } else {
      assert !OddOnes(Xor(a, b), 0);
    }
  }

  lemma {:induction false} OddOnesLast(c: bv16, n: nat)
    ensures OddOnes(c, n + 1) <==> OddOnes(c, n) != Top(Left(c, n))
    decreases n
  {
    hide Double, Top;
    if n > 0 {
      OddOnesLast(Double(c), n - 1);
    } else {
      assert OddOnes(c, 1) == (Top(c) != OddOnes(Double(c), 0));
    }
  }

  lemma AllShiftedOut(c: bv16)
    ensures Left(c, 16) == 0 && !Top(0)
  {
    hide Double;
    LeftCompose(c, 8, 8);
    EightSteps(c);
    EightSteps(LowToHigh(c));
    BvShiftedOut(c);
  }

  lemma BvShiftedOut(c: bv16)
    ensures LowToHigh(LowToHigh(c)) == 0
  {
  }

  lemma PolyParity()
    ensures OddOnes(POLY, 16) && !OddOnes(INIT, 16)
  {
    hide OddOnes;
    PolyUpper();
    PolyMiddle();
    PolyLower();
    InitUpper();
    InitLower();
  }

  lemma PolyUpper()
    ensures OddOnes(0x1021, 16) == !OddOnes(0x0210, 12)
  {
    assert OddOnes(0x1021, 16) == OddOnes(0x2042, 15) == OddOnes(0x4084, 14) == OddOnes(0x8108, 13);
    assert OddOnes(0x8108, 13) == !OddOnes(0x0210, 12);
  }

  lemma PolyMiddle()
    ensures OddOnes(0x0210, 12) == !OddOnes(0x0800, 5)
  {
    assert OddOnes(0x0210, 12) == OddOnes(0x0420, 11) == OddOnes(0x0840, 10) == OddOnes(0x1080, 9);
    assert OddOnes(0x1080, 9) == OddOnes(0x2100, 8) == OddOnes(0x4200, 7) == OddOnes(0x8400, 6);
    assert OddOnes(0x8400, 6) == !OddOnes(0x0800, 5);
  }

  lemma PolyLower()
    ensures OddOnes(0x0800, 5)
  {
    assert OddOnes(0x0800, 5) == OddOnes(0x1000, 4) == OddOnes(0x2000, 3) == OddOnes(0x4000, 2) == OddOnes(0x8000, 1);
    assert OddOnes(0x8000, 1) == !OddOnes(0, 0);
  }

  lemma InitUpper()
    ensures OddOnes(0xFFFF, 16) == OddOnes(0xFF00, 8)
  {
    assert OddOnes(0xFFFF, 16) == !OddOnes(0xFFFE, 15) == OddOnes(0xFFFC, 14) == !OddOnes(0xFFF8, 13)
      == OddOnes(0xFFF0, 12);
    assert OddOnes(0xFFF0, 12) == !OddOnes(0xFFE0, 11) == OddOnes(0xFFC0, 10) == !OddOnes(0xFF80, 9)
      == OddOnes(0xFF00, 8);
  }

  lemma InitLower()
    ensures !OddOnes(0xFF00, 8)
  {
    assert OddOnes(0xFF00, 8) == !OddOnes(0xFE00, 7) == OddOnes(0xFC00, 6) == !OddOnes(0xF800, 5) == OddOnes(0xF000, 4);
    assert OddOnes(0xF000, 4) == !OddOnes(0xE000, 3) == OddOnes(0xC000, 2) == !OddOnes(0x8000, 1) == OddOnes(0, 0);
  }

  /** One clock flips the register's parity exactly when a one enters. */
  lemma ClockParity(c: bv16, m: bool)
    ensures OddOnes(Clock(c, m), 16) <==> OddOnes(c, 16) != m
  {
    hide Xor, Double, Top, Left;
    AllShiftedOut(c);
    LeftStep(c);
    OddOnesLast(Double(c), 15);
    assert OddOnes(c, 16) == (Top(c) != OddOnes(Double(c), 15));
    PolyParity();
    OddOnesLinear(Double(c), POLY, 16);
  }

  lemma LeftStep(c: bv16)
    ensures Left(Double(c), 15) == Left(c, 16)
  {
  }

  lemma {:induction false} RegisterParity(c: bv16, bits: seq<bool>)
    ensures OddOnes(Register(c, bits), 16) <==> OddOnes(c, 16) != OddBits(bits)
    decreases |bits|
  {
    hide Clock, OddOnes;
    if bits != [] {
      ClockParity(c, bits[0]);
      RegisterParity(Clock(c, bits[0]), bits[1..]);
    }
  }

  /** How many bits differ. */
  function Flips(a: seq<bool>, b: seq<bool>): nat
    requires |a| == |b|
  {
    if a == [] then 0 else (if a[0] != b[0] then 1 else 0) + Flips(a[1..], b[1..])
  }

  lemma {:induction false} FlipsParity(a: seq<bool>, b: seq<bool>)
    requires |a| == |b|
    ensures Flips(a, b) % 2 == 1 <==> OddBits(a) != OddBits(b)
    decreases |a|
  {
    if a != [] {
      FlipsParity(a[1..], b[1..]);
    }
  }

  /** Any odd number of flipped bits, wherever they lie, is rejected. */
  lemma OddFlipsDetected(sent: Bytes, received: Bytes)
    requires Valid(sent) && |sent| == |received|
    requires Flips(Bits(sent), Bits(received)) % 2 == 1
    ensures !Valid(received)
  {
    hide Register, OddOnes;
    RegisterParity(INIT, Bits(sent));
    RegisterParity(INIT, Bits(received));
    FlipsParity(Bits(sent), Bits(received));
  }
}
