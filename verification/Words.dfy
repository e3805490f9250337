/** Fixed-width unsigned integers, wrapping clocks and transport addresses.

Bytes and words are bounded integers; wherever the program wraps, the modulus is
written out. Bit-level code (CRC, SHA-256, the session-id hash) converts to
bit-vectors and back.
*/
module Words {

  type u8 = x: int | 0 <= x < 0x100
  type u16 = x: int | 0 <= x < 0x1_0000
  type u32 = x: int | 0 <= x < 0x1_0000_0000
  type u64 = x: int | 0 <= x < 0x1_0000_0000_0000_0000

  type Bytes = seq<u8>

  /** A transport address: an opaque byte array compared as a whole. */
  type Address = seq<u8>

  datatype Option<+T> = None | Some(value: T)

  const TWO_16: int := 0x1_0000
  const TWO_31: int := 0x8000_0000
  const TWO_32: int := 0x1_0000_0000

  /** Conversion to `uint32_t`: the low 32 bits of an unbounded integer. */
  function Wrap32(x: int): u32 {
    x % TWO_32
  }

  // ---------------------------------------------------------------- clocks

  /** `static_cast<int32_t>(now - target) > 0`. */
  predicate TimeAfter(now: u32, target: u32) {
    0 < Wrap32(now - target) < TWO_31
  }

  /** `static_cast<int32_t>(now - target) >= 0`. */
  predicate TimeAfterOrEq(now: u32, target: u32) {
    Wrap32(now - target) < TWO_31
  }

  /** The 32-bit comparisons agree with comparing true (unbounded) times as long as
      the two times are less than 2^31 ms apart, wherever the clock wraps. */
  lemma ClockComparison(now: int, target: int)
    requires -TWO_31 <= now - target < TWO_31
    ensures TimeAfter(Wrap32(now), Wrap32(target)) <==> now > target
    ensures TimeAfterOrEq(Wrap32(now), Wrap32(target)) <==> now >= target
  {
    WrapDifference(now, target);
  }

  /** Outside that window the strict comparison is wrong for at least half of all
      later times: a target 2^31 ms in the past reads as lying in the future. */
  lemma ClockComparisonFails(now: int, target: int)
    requires TWO_31 <= now - target < TWO_32
    ensures now > target && !TimeAfter(Wrap32(now), Wrap32(target))
  {
    WrapDifference(now, target);
  }

  lemma WrapDifference(a: int, b: int)
    ensures Wrap32(Wrap32(a) - Wrap32(b)) == Wrap32(a - b)
  {
    var x, y := a / TWO_32, b / TWO_32;
    assert Wrap32(a) - Wrap32(b) == (a - b) - TWO_32 * (x - y);
    ModShift(a - b, x - y);
  }

  /** Adding a wrapped time and a delay wraps to the true sum. */
  lemma WrapSum(a: int, b: int)
    ensures Wrap32(Wrap32(a) + b) == Wrap32(a + b)
  {
    var x := a / TWO_32;
    assert Wrap32(a) + b == (a + b) - TWO_32 * x;
    ModShift(a + b, x);
  }

  lemma ModShift(a: int, k: int)
    ensures (a - TWO_32 * k) % TWO_32 == a % TWO_32
  {
    var q, r := a / TWO_32, a % TWO_32;
    assert a - TWO_32 * k == TWO_32 * (q - k) + r;
  }

  // ---------------------------------------------------- bytes as bit-vectors

  /** The bit-vector of a byte. */
  function Bv8(b: u8): bv8 {
    b as bv8
  }

  lemma Bv8RoundTrip(b: u8)
    ensures Bv8(b) as int == b
  {
    BvIntBv(CountUp(b));
  }

  lemma Bv8Injective(a: u8, b: u8)
    requires Bv8(a) == Bv8(b)
    ensures a == b
  {
    Bv8RoundTrip(a);
    Bv8RoundTrip(b);
  }

  lemma BvIntBv(x: bv8)
    ensures 0 <= x as int < 256 && (x as int) as bv8 == x
  {
  }

  lemma BvIncrement(x: bv8)
    requires x != 0xff
    ensures (x + 1) as int == x as int + 1
  {
  }

  ghost function CountUp(b: u8): (r: bv8)
    ensures r as int == b
  {
    if b == 0 then 0
    else
      var r := CountUp(b - 1);
      assert r != 0xff by { TopByte(); }
      BvIncrement(r);
      r + 1
  }

  lemma TopByte()
    ensures (0xff as bv8) as int == 255
  {
  }

  /** The bit-vector of a 16-bit word. */
  function Bv16(x: u16): bv16 {
    x as bv16
  }

  lemma Bv16RoundTrip(x: u16)
    ensures Bv16(x) as int == x
  {
    hide Join, Bv8, Bv16;
    Bv8RoundTrip(x / 256);
    Bv8RoundTrip(x % 256);
    var r := Join(Bv8(x / 256), Bv8(x % 256));
    JoinedValue(Bv8(x / 256), Bv8(x % 256));
    ValueDetermines(x, r);
  }

  lemma ValueDetermines(x: u16, r: bv16)
    requires r as int == x
    ensures Bv16(x) == r
  {
    Bv16Back(r);
  }

  function Join(hi: bv8, lo: bv8): bv16 {
    ((hi as bv16) << 8) | (lo as bv16)
  }

  lemma JoinedValue(hi: bv8, lo: bv8)
    ensures Join(hi, lo) as int == (hi as int) * 256 + (lo as int)
  {
    hide Join;
    JoinedHalves(hi, lo);
    BvHalves(Join(hi, lo));
    BvExtend(hi);
    BvExtend(lo);
  }

  lemma JoinedHalves(hi: bv8, lo: bv8)
    ensures Join(hi, lo) >> 8 == hi as bv16 && Join(hi, lo) & 0xFF == lo as bv16
  {
    BvJoin(hi, lo);
  }

  lemma BvHalves(x: bv16)
    ensures x as int == ((x >> 8) as int) * 256 + ((x & 0xFF) as int)
  {
  }

  lemma BvExtend(b: bv8)
    ensures (b as bv16) as int == b as int
  {
  }

  lemma BvJoin(hi: bv8, lo: bv8)
    ensures (((hi as bv16) << 8) | (lo as bv16)) >> 8 == hi as bv16
    ensures (((hi as bv16) << 8) | (lo as bv16)) & 0xFF == lo as bv16
  {
  }

  lemma Bv16Back(x: bv16)
    ensures 0 <= x as int < 0x1_0000 && (x as int) as bv16 == x
  {
  }

  function Xor16(a: u16, b: u16): u16 {
    BvXor(Bv16(a), Bv16(b)) as int
  }

  function Or16(a: u16, b: u16): u16 {
    (Bv16(a) | Bv16(b)) as int
  }

  function BvXor(a: bv16, b: bv16): bv16 {
    a ^ b
  }

  /** Exclusive or with a fixed word loses nothing. */
  lemma Xor16Injective(s: u16, a: u16, b: u16)
    requires Xor16(s, a) == Xor16(s, b)
    ensures a == b
  {
    hide BvXor, Bv16;
    Bv16Back(BvXor(Bv16(s), Bv16(a)));
    Bv16Back(BvXor(Bv16(s), Bv16(b)));
    BvXorBack(Bv16(s), Bv16(a));
    BvXorBack(Bv16(s), Bv16(b));
    Bv16RoundTrip(a);
    Bv16RoundTrip(b);
  }

  lemma BvXorBack(s: bv16, a: bv16)
    ensures BvXor(s, BvXor(s, a)) == a
  {
  }
}
