/** What pins SHA-256 apart from the program's own tables: where its constants come from, and the
digest of "abc" (FIPS 180-4, sections 4.2.2 and 5.3.3; `test/test_sha256.cpp`). */
module Sha256Answer {
  import opened Words
  import opened Sha256Spec

  // ------------------------------------------------------------------- the constants

  /** The first 64 prime numbers. */
  const PRIMES: seq<nat> :=
    [2, 3, 5, 7, 11, 13, 17, 19, 23, 29, 31, 37, 41, 43, 47, 53]
    + [59, 61, 67, 71, 73, 79, 83, 89, 97, 101, 103, 107, 109, 113, 127, 131]
    + [137, 139, 149, 151, 157, 163, 167, 173, 179, 181, 191, 193, 197, 199, 211, 223]
    + [227, 229, 233, 239, 241, 251, 257, 263, 269, 271, 277, 281, 283, 293, 307, 311]


  /** The integer part of a cube root. */
  function CubeRoot(p: nat): (c: nat)
    requires p < 343
    ensures c * c * c <= p < (c + 1) * (c + 1) * (c + 1)
  {
    if p < 1 then 0 else if p < 8 then 1 else if p < 27 then 2 else if p < 64 then 3
    else if p < 125 then 4 else if p < 216 then 5 else 6
  }

  function SquareRoot(p: nat): (c: nat)
    requires p < 25
    ensures c * c <= p < (c + 1) * (c + 1)
  {
    if p < 1 then 0 else if p < 4 then 1 else if p < 9 then 2 else if p < 16 then 3 else 4
  }

  /** `k` holds the first 32 bits of the fractional part of the cube root of `p`. */
  predicate CubeRootBits(p: nat, k: Word)
    requires p < 343
  {
    var x := CubeRoot(p) * 0x1_0000_0000 + k as int;
    x * x * x <= p * 0x1_0000_0000_0000_0000_0000_0000 < (x + 1) * (x + 1) * (x + 1)
  }

  predicate SquareRootBits(p: nat, h: Word)
    requires p < 25
  {
    var x := SquareRoot(p) * 0x1_0000_0000 + h as int;
    x * x <= p * 0x1_0000_0000_0000_0000 < (x + 1) * (x + 1)
  }

  /** The round constant number `t` comes from the prime number `t`. */
  predicate FromPrime(t: nat)
    requires t < 64
  {
    |PRIMES| == 64 && PRIMES[t] < 343 && CubeRootBits(PRIMES[t], K[t])
  }

  lemma ConstantsAt0()
    ensures |K| == 64
    ensures K[0] == 0x428a2f98 && K[1] == 0x71374491 && K[2] == 0xb5c0fbcf && K[3] == 0xe9b5dba5
    ensures K[4] == 0x3956c25b && K[5] == 0x59f111f1 && K[6] == 0x923f82a4 && K[7] == 0xab1c5ed5
  {
  }

  lemma PrimesAt0()
    ensures |PRIMES| == 64
    ensures PRIMES[0] == 2 && PRIMES[1] == 3 && PRIMES[2] == 5 && PRIMES[3] == 7
    ensures PRIMES[4] == 11 && PRIMES[5] == 13 && PRIMES[6] == 17 && PRIMES[7] == 19
  {
  }

  lemma RoundConstants0()
    ensures FromPrime(0) && FromPrime(1) && FromPrime(2) && FromPrime(3)
    ensures FromPrime(4) && FromPrime(5) && FromPrime(6) && FromPrime(7)
  {
    hide K, PRIMES;
    ConstantsAt0();
    PrimesAt0();
    assert CubeRootBits(2, 0x428a2f98);
    assert CubeRootBits(3, 0x71374491);
    assert CubeRootBits(5, 0xb5c0fbcf);
    assert CubeRootBits(7, 0xe9b5dba5);
    assert CubeRootBits(11, 0x3956c25b);
    assert CubeRootBits(13, 0x59f111f1);
    assert CubeRootBits(17, 0x923f82a4);
    assert CubeRootBits(19, 0xab1c5ed5);
  }

  lemma ConstantsAt8()
    ensures |K| == 64
    ensures K[8] == 0xd807aa98 && K[9] == 0x12835b01 && K[10] == 0x243185be && K[11] == 0x550c7dc3
    ensures K[12] == 0x72be5d74 && K[13] == 0x80deb1fe && K[14] == 0x9bdc06a7 && K[15] == 0xc19bf174
  {
  }

  lemma PrimesAt8()
    ensures |PRIMES| == 64
    ensures PRIMES[8] == 23 && PRIMES[9] == 29 && PRIMES[10] == 31 && PRIMES[11] == 37
    ensures PRIMES[12] == 41 && PRIMES[13] == 43 && PRIMES[14] == 47 && PRIMES[15] == 53
  {
  }

  lemma RoundConstants8()
    ensures FromPrime(8) && FromPrime(9) && FromPrime(10) && FromPrime(11)
    ensures FromPrime(12) && FromPrime(13) && FromPrime(14) && FromPrime(15)
  {
    hide K, PRIMES;
    ConstantsAt8();
    PrimesAt8();
    assert CubeRootBits(23, 0xd807aa98);
    assert CubeRootBits(29, 0x12835b01);
    assert CubeRootBits(31, 0x243185be);
    assert CubeRootBits(37, 0x550c7dc3);
    assert CubeRootBits(41, 0x72be5d74);
    assert CubeRootBits(43, 0x80deb1fe);
    assert CubeRootBits(47, 0x9bdc06a7);
    assert CubeRootBits(53, 0xc19bf174);
  }

  lemma ConstantsAt16()
    ensures |K| == 64
    ensures K[16] == 0xe49b69c1 && K[17] == 0xefbe4786 && K[18] == 0x0fc19dc6 && K[19] == 0x240ca1cc
    ensures K[20] == 0x2de92c6f && K[21] == 0x4a7484aa && K[22] == 0x5cb0a9dc && K[23] == 0x76f988da
  {
  }

  lemma PrimesAt16()
    ensures |PRIMES| == 64
    ensures PRIMES[16] == 59 && PRIMES[17] == 61 && PRIMES[18] == 67 && PRIMES[19] == 71
    ensures PRIMES[20] == 73 && PRIMES[21] == 79 && PRIMES[22] == 83 && PRIMES[23] == 89
  {
  }

  lemma RoundConstants16()
    ensures FromPrime(16) && FromPrime(17) && FromPrime(18) && FromPrime(19)
    ensures FromPrime(20) && FromPrime(21) && FromPrime(22) && FromPrime(23)
  {
    hide K, PRIMES;
    ConstantsAt16();
    PrimesAt16();
    assert CubeRootBits(59, 0xe49b69c1);
    assert CubeRootBits(61, 0xefbe4786);
    assert CubeRootBits(67, 0x0fc19dc6);
    assert CubeRootBits(71, 0x240ca1cc);
    assert CubeRootBits(73, 0x2de92c6f);
    assert CubeRootBits(79, 0x4a7484aa);
    assert CubeRootBits(83, 0x5cb0a9dc);
    assert CubeRootBits(89, 0x76f988da);
  }

  lemma ConstantsAt24()
    ensures |K| == 64
    ensures K[24] == 0x983e5152 && K[25] == 0xa831c66d && K[26] == 0xb00327c8 && K[27] == 0xbf597fc7
    ensures K[28] == 0xc6e00bf3 && K[29] == 0xd5a79147 && K[30] == 0x06ca6351 && K[31] == 0x14292967
  {
  }

  lemma PrimesAt24()
    ensures |PRIMES| == 64
    ensures PRIMES[24] == 97 && PRIMES[25] == 101 && PRIMES[26] == 103 && PRIMES[27] == 107
    ensures PRIMES[28] == 109 && PRIMES[29] == 113 && PRIMES[30] == 127 && PRIMES[31] == 131
  {
  }

  lemma RoundConstants24()
    ensures FromPrime(24) && FromPrime(25) && FromPrime(26) && FromPrime(27)
    ensures FromPrime(28) && FromPrime(29) && FromPrime(30) && FromPrime(31)
  {
    hide K, PRIMES;
    ConstantsAt24();
    PrimesAt24();
    assert CubeRootBits(97, 0x983e5152);
    assert CubeRootBits(101, 0xa831c66d);
    assert CubeRootBits(103, 0xb00327c8);
    assert CubeRootBits(107, 0xbf597fc7);
    assert CubeRootBits(109, 0xc6e00bf3);
    assert CubeRootBits(113, 0xd5a79147);
    assert CubeRootBits(127, 0x06ca6351);
    assert CubeRootBits(131, 0x14292967);
  }

  lemma ConstantsAt32()
    ensures |K| == 64
    ensures K[32] == 0x27b70a85 && K[33] == 0x2e1b2138 && K[34] == 0x4d2c6dfc && K[35] == 0x53380d13
    ensures K[36] == 0x650a7354 && K[37] == 0x766a0abb && K[38] == 0x81c2c92e && K[39] == 0x92722c85
  {
  }

  lemma PrimesAt32()
    ensures |PRIMES| == 64
    ensures PRIMES[32] == 137 && PRIMES[33] == 139 && PRIMES[34] == 149 && PRIMES[35] == 151
    ensures PRIMES[36] == 157 && PRIMES[37] == 163 && PRIMES[38] == 167 && PRIMES[39] == 173
  {
  }

  lemma RoundConstants32()
    ensures FromPrime(32) && FromPrime(33) && FromPrime(34) && FromPrime(35)
    ensures FromPrime(36) && FromPrime(37) && FromPrime(38) && FromPrime(39)
  {
    hide K, PRIMES;
    ConstantsAt32();
    PrimesAt32();
    assert CubeRootBits(137, 0x27b70a85);
    assert CubeRootBits(139, 0x2e1b2138);
    assert CubeRootBits(149, 0x4d2c6dfc);
    assert CubeRootBits(151, 0x53380d13);
    assert CubeRootBits(157, 0x650a7354);
    assert CubeRootBits(163, 0x766a0abb);
    assert CubeRootBits(167, 0x81c2c92e);
    assert CubeRootBits(173, 0x92722c85);
  }

  lemma ConstantsAt40()
    ensures |K| == 64
    ensures K[40] == 0xa2bfe8a1 && K[41] == 0xa81a664b && K[42] == 0xc24b8b70 && K[43] == 0xc76c51a3
    ensures K[44] == 0xd192e819 && K[45] == 0xd6990624 && K[46] == 0xf40e3585 && K[47] == 0x106aa070
  {
  }

  lemma PrimesAt40()
    ensures |PRIMES| == 64
    ensures PRIMES[40] == 179 && PRIMES[41] == 181 && PRIMES[42] == 191 && PRIMES[43] == 193
    ensures PRIMES[44] == 197 && PRIMES[45] == 199 && PRIMES[46] == 211 && PRIMES[47] == 223
  {
  }

  lemma RoundConstants40()
    ensures FromPrime(40) && FromPrime(41) && FromPrime(42) && FromPrime(43)
    ensures FromPrime(44) && FromPrime(45) && FromPrime(46) && FromPrime(47)
  {
    hide K, PRIMES;
    ConstantsAt40();
    PrimesAt40();
    assert CubeRootBits(179, 0xa2bfe8a1);
    assert CubeRootBits(181, 0xa81a664b);
    assert CubeRootBits(191, 0xc24b8b70);
    assert CubeRootBits(193, 0xc76c51a3);
    assert CubeRootBits(197, 0xd192e819);
    assert CubeRootBits(199, 0xd6990624);
    assert CubeRootBits(211, 0xf40e3585);
    assert CubeRootBits(223, 0x106aa070);
  }

  lemma ConstantsAt48()
    ensures |K| == 64
    ensures K[48] == 0x19a4c116 && K[49] == 0x1e376c08 && K[50] == 0x2748774c && K[51] == 0x34b0bcb5
    ensures K[52] == 0x391c0cb3 && K[53] == 0x4ed8aa4a && K[54] == 0x5b9cca4f && K[55] == 0x682e6ff3
  {
  }

  lemma PrimesAt48()
    ensures |PRIMES| == 64
    ensures PRIMES[48] == 227 && PRIMES[49] == 229 && PRIMES[50] == 233 && PRIMES[51] == 239
    ensures PRIMES[52] == 241 && PRIMES[53] == 251 && PRIMES[54] == 257 && PRIMES[55] == 263
  {
  }

  lemma RoundConstants48()
    ensures FromPrime(48) && FromPrime(49) && FromPrime(50) && FromPrime(51)
    ensures FromPrime(52) && FromPrime(53) && FromPrime(54) && FromPrime(55)
  {
    hide K, PRIMES;
    ConstantsAt48();
    PrimesAt48();
    assert CubeRootBits(227, 0x19a4c116);
    assert CubeRootBits(229, 0x1e376c08);
    assert CubeRootBits(233, 0x2748774c);
    assert CubeRootBits(239, 0x34b0bcb5);
    assert CubeRootBits(241, 0x391c0cb3);
    assert CubeRootBits(251, 0x4ed8aa4a);
    assert CubeRootBits(257, 0x5b9cca4f);
    assert CubeRootBits(263, 0x682e6ff3);
  }

  lemma ConstantsAt56()
    ensures |K| == 64
    ensures K[56] == 0x748f82ee && K[57] == 0x78a5636f && K[58] == 0x84c87814 && K[59] == 0x8cc70208
    ensures K[60] == 0x90befffa && K[61] == 0xa4506ceb && K[62] == 0xbef9a3f7 && K[63] == 0xc67178f2
  {
  }

  lemma PrimesAt56()
    ensures |PRIMES| == 64
    ensures PRIMES[56] == 269 && PRIMES[57] == 271 && PRIMES[58] == 277 && PRIMES[59] == 281
    ensures PRIMES[60] == 283 && PRIMES[61] == 293 && PRIMES[62] == 307 && PRIMES[63] == 311
  {
  }

  lemma RoundConstants56()
    ensures FromPrime(56) && FromPrime(57) && FromPrime(58) && FromPrime(59)
    ensures FromPrime(60) && FromPrime(61) && FromPrime(62) && FromPrime(63)
  {
    hide K, PRIMES;
    ConstantsAt56();
    PrimesAt56();
    assert CubeRootBits(269, 0x748f82ee);
    assert CubeRootBits(271, 0x78a5636f);
    assert CubeRootBits(277, 0x84c87814);
    assert CubeRootBits(281, 0x8cc70208);
    assert CubeRootBits(283, 0x90befffa);
    assert CubeRootBits(293, 0xa4506ceb);
    assert CubeRootBits(307, 0xbef9a3f7);
    assert CubeRootBits(311, 0xc67178f2);
  }

  /** Every round constant holds the first 32 bits of the fractional part of the cube root of
      its prime: with c the integer part, (c * 2^32 + K)^3 <= p * 2^96 < (c * 2^32 + K + 1)^3. */
  lemma RoundConstants(t: nat)
    requires t < 64
    ensures FromPrime(t)
  {
    hide *;
    RoundConstants0();
    RoundConstants8();
    RoundConstants16();
    RoundConstants24();
    RoundConstants32();
    RoundConstants40();
    RoundConstants48();
    RoundConstants56();
  }

  /** The initial hash value comes from the square roots of the first eight primes. */
  lemma InitialValue()
    ensures SquareRootBits(2, H0.a) && SquareRootBits(3, H0.b) && SquareRootBits(5, H0.c) && SquareRootBits(7, H0.d)
    ensures SquareRootBits(11, H0.e) && SquareRootBits(13, H0.f) && SquareRootBits(17, H0.g) && SquareRootBits(19, H0.h)
  {
    assert SquareRootBits(2, 0x6a09e667) && SquareRootBits(3, 0xbb67ae85);
    assert SquareRootBits(5, 0x3c6ef372) && SquareRootBits(7, 0xa54ff53a);
    assert SquareRootBits(11, 0x510e527f) && SquareRootBits(13, 0x9b05688c);
    assert SquareRootBits(17, 0x1f83d9ab) && SquareRootBits(19, 0x5be0cd19);
  }

  // ------------------------------------------------------------------ the known answer

  /** "abc", padded. */
  const ABC: Block := [0x61, 0x62, 0x63, 0x80] + Zeros(59) + [24]

  lemma AbcPadded()
    ensures Pad([0x61, 0x62, 0x63]) == ABC
  {
    var m: Bytes := [0x61, 0x62, 0x63];
    PadLengthCases(3, 3);
    LengthBytes();
    assert Zeros(52) + BigEndian(24, 8) == Zeros(59) + [24];
    assert m + [0x80] + Zeros(52) + BigEndian(24, 8) == m + [0x80] + (Zeros(52) + BigEndian(24, 8));
    assert m + [0x80] == [0x61, 0x62, 0x63, 0x80];
  }

  lemma LengthBytes()
    ensures BigEndian(24, 8) == [0, 0, 0, 0, 0, 0, 0, 24]
  {
  }

  lemma AbcBytes()
    ensures ABC[0] == 0x61 && ABC[1] == 0x62 && ABC[2] == 0x63 && ABC[3] == 0x80 && ABC[63] == 24
    ensures forall i :: 4 <= i < 63 ==> ABC[i] == 0
  {
  }

  // The message schedule, eight words at a time.

  lemma AbcWords0()
    ensures W(ABC, 0) == 0x61626380 && W(ABC, 1) == 0x00000000 && W(ABC, 2) == 0x00000000 && W(ABC, 3) == 0x00000000
    ensures W(ABC, 4) == 0x00000000 && W(ABC, 5) == 0x00000000 && W(ABC, 6) == 0x00000000 && W(ABC, 7) == 0x00000000
    ensures W(ABC, 8) == 0x00000000 && W(ABC, 9) == 0x00000000 && W(ABC, 10) == 0x00000000 && W(ABC, 11) == 0x00000000
    ensures W(ABC, 12) == 0x00000000 && W(ABC, 13) == 0x00000000 && W(ABC, 14) == 0x00000000 && W(ABC, 15) == 0x00000018
  {
    hide W, BigEndianWord, ABC;
    AbcBytes();
    FirstWords();
    ScheduleStart(ABC, 0);
    ScheduleStart(ABC, 1);
    ScheduleStart(ABC, 2);
    ScheduleStart(ABC, 3);
    ScheduleStart(ABC, 4);
    ScheduleStart(ABC, 5);
    ScheduleStart(ABC, 6);
    ScheduleStart(ABC, 7);
    ScheduleStart(ABC, 8);
    ScheduleStart(ABC, 9);
    ScheduleStart(ABC, 10);
    ScheduleStart(ABC, 11);
    ScheduleStart(ABC, 12);
    ScheduleStart(ABC, 13);
    ScheduleStart(ABC, 14);
    ScheduleStart(ABC, 15);
  }

  lemma FirstWords()
    ensures BigEndianWord(0x61, 0x62, 0x63, 0x80) == 0x61626380 && BigEndianWord(0, 0, 0, 24) == 24
    ensures BigEndianWord(0, 0, 0, 0) == 0
  {
  }

  lemma AbcWords16()
    ensures W(ABC, 16) == 0x61626380 && W(ABC, 17) == 0x000f0000 && W(ABC, 18) == 0x7da86405 && W(ABC, 19) == 0x600003c6
    ensures W(ABC, 20) == 0x3e9d7b78 && W(ABC, 21) == 0x0183fc00 && W(ABC, 22) == 0x12dcbfdb && W(ABC, 23) == 0xe2e2c38e
  {
    hide W, ABC;
    AbcWords0();
    ScheduleStep(ABC, 16);
    ScheduleStep(ABC, 17);
    ScheduleStep(ABC, 18);
    ScheduleStep(ABC, 19);
    ScheduleStep(ABC, 20);
    ScheduleStep(ABC, 21);
    ScheduleStep(ABC, 22);
    ScheduleStep(ABC, 23);
  }

  lemma AbcWords24()
    ensures W(ABC, 24) == 0xc8215c1a && W(ABC, 25) == 0xb73679a2 && W(ABC, 26) == 0xe5bc3909 && W(ABC, 27) == 0x32663c5b
    ensures W(ABC, 28) == 0x9d209d67 && W(ABC, 29) == 0xec8726cb && W(ABC, 30) == 0x702138a4 && W(ABC, 31) == 0xd3b7973b
  {
    hide W, ABC;
    AbcWords0();
    AbcWords16();
    ScheduleStep(ABC, 24);
    ScheduleStep(ABC, 25);
    ScheduleStep(ABC, 26);
    ScheduleStep(ABC, 27);
    ScheduleStep(ABC, 28);
    ScheduleStep(ABC, 29);
    ScheduleStep(ABC, 30);
    ScheduleStep(ABC, 31);
  }

  lemma AbcWords32()
    ensures W(ABC, 32) == 0x93f5997f && W(ABC, 33) == 0x3b68ba73 && W(ABC, 34) == 0xaff4ffc1 && W(ABC, 35) == 0xf10a5c62
    ensures W(ABC, 36) == 0x0a8b3996 && W(ABC, 37) == 0x72af830a && W(ABC, 38) == 0x9409e33e && W(ABC, 39) == 0x24641522
  {
    hide W, ABC;
    AbcWords16();
    AbcWords24();
    ScheduleStep(ABC, 32);
    ScheduleStep(ABC, 33);
    ScheduleStep(ABC, 34);
    ScheduleStep(ABC, 35);
    ScheduleStep(ABC, 36);
    ScheduleStep(ABC, 37);
    ScheduleStep(ABC, 38);
    ScheduleStep(ABC, 39);
  }

  lemma AbcWords40()
    ensures W(ABC, 40) == 0x9f47bf94 && W(ABC, 41) == 0xf0a64f5a && W(ABC, 42) == 0x3e246a79 && W(ABC, 43) == 0x27333ba3
    ensures W(ABC, 44) == 0x0c4763f2 && W(ABC, 45) == 0x840abf27 && W(ABC, 46) == 0x7a290d5d && W(ABC, 47) == 0x065c43da
  {
    hide W, ABC;
    AbcWords24();
    AbcWords32();
    ScheduleStep(ABC, 40);
    ScheduleStep(ABC, 41);
    ScheduleStep(ABC, 42);
    ScheduleStep(ABC, 43);
    ScheduleStep(ABC, 44);
    ScheduleStep(ABC, 45);
    ScheduleStep(ABC, 46);
    ScheduleStep(ABC, 47);
  }

  lemma AbcWords48()
    ensures W(ABC, 48) == 0xfb3e89cb && W(ABC, 49) == 0xcc7617db && W(ABC, 50) == 0xb9e66c34 && W(ABC, 51) == 0xa9993667
    ensures W(ABC, 52) == 0x84badedd && W(ABC, 53) == 0xc21462bc && W(ABC, 54) == 0x1487472c && W(ABC, 55) == 0xb20f7a99
  {
    hide W, ABC;
    AbcWords32();
    AbcWords40();
    ScheduleStep(ABC, 48);
    ScheduleStep(ABC, 49);
    ScheduleStep(ABC, 50);
    ScheduleStep(ABC, 51);
    ScheduleStep(ABC, 52);
    ScheduleStep(ABC, 53);
    ScheduleStep(ABC, 54);
    ScheduleStep(ABC, 55);
  }

  lemma AbcWords56()
    ensures W(ABC, 56) == 0xef57b9cd && W(ABC, 57) == 0xebe6b238 && W(ABC, 58) == 0x9fe3095e && W(ABC, 59) == 0x78bc8d4b
    ensures W(ABC, 60) == 0xa43fcf15 && W(ABC, 61) == 0x668b2ff8 && W(ABC, 62) == 0xeeaba2cc && W(ABC, 63) == 0x12b1edeb
  {
    hide W, ABC;
    AbcWords40();
    AbcWords48();
    ScheduleStep(ABC, 56);
    ScheduleStep(ABC, 57);
    ScheduleStep(ABC, 58);
    ScheduleStep(ABC, 59);
    ScheduleStep(ABC, 60);
    ScheduleStep(ABC, 61);
    ScheduleStep(ABC, 62);
    ScheduleStep(ABC, 63);
  }

  // The rounds, eight at a time.

  lemma NextRound(n: nat)
    requires n < 64
    ensures Rounds(H0, ABC, n + 1) == Round(Rounds(H0, ABC, n), K[n], W(ABC, n))
  {
    hide W, Round, K, ABC;
  }

  lemma AbcRounds8()
    ensures Rounds(H0, ABC, 8)
         == Eight(0x85a07b5f, 0xe5030380, 0x2b4209f5, 0x04409a6a,
                  0x0c657a79, 0x9b27a401, 0x714260ad, 0x43ada245)
  {
    hide W, Rounds, K, ABC;
    ConstantsAt0();
    AbcWords0();
    NoRounds();
    NextRound(0);
    assert Rounds(H0, ABC, 1)
        == Eight(0x5d6aebcd, 0x6a09e667, 0xbb67ae85, 0x3c6ef372,
                 0xfa2a4622, 0x510e527f, 0x9b05688c, 0x1f83d9ab);
    NextRound(1);
    assert Rounds(H0, ABC, 2)
        == Eight(0x5a6ad9ad, 0x5d6aebcd, 0x6a09e667, 0xbb67ae85,
                 0x78ce7989, 0xfa2a4622, 0x510e527f, 0x9b05688c);
    NextRound(2);
    assert Rounds(H0, ABC, 3)
        == Eight(0xc8c347a7, 0x5a6ad9ad, 0x5d6aebcd, 0x6a09e667,
                 0xf92939eb, 0x78ce7989, 0xfa2a4622, 0x510e527f);
    NextRound(3);
    assert Rounds(H0, ABC, 4)
        == Eight(0xd550f666, 0xc8c347a7, 0x5a6ad9ad, 0x5d6aebcd,
                 0x24e00850, 0xf92939eb, 0x78ce7989, 0xfa2a4622);
    NextRound(4);
    assert Rounds(H0, ABC, 5)
        == Eight(0x04409a6a, 0xd550f666, 0xc8c347a7, 0x5a6ad9ad,
                 0x43ada245, 0x24e00850, 0xf92939eb, 0x78ce7989);
    NextRound(5);
    assert Rounds(H0, ABC, 6)
        == Eight(0x2b4209f5, 0x04409a6a, 0xd550f666, 0xc8c347a7,
                 0x714260ad, 0x43ada245, 0x24e00850, 0xf92939eb);
    NextRound(6);
    assert Rounds(H0, ABC, 7)
        == Eight(0xe5030380, 0x2b4209f5, 0x04409a6a, 0xd550f666,
                 0x9b27a401, 0x714260ad, 0x43ada245, 0x24e00850);
    NextRound(7);
  }

  lemma AbcRounds16()
    ensures Rounds(H0, ABC, 16)
         == Eight(0xb0fa238e, 0xc0645fde, 0xd932eb16, 0x87912990,
                  0x07590dcd, 0x0b92f20c, 0x745a48de, 0x1e578218)
  {
    hide W, Rounds, K, ABC;
    ConstantsAt8();
    AbcWords0();
    AbcRounds8();
    NextRound(8);
    assert Rounds(H0, ABC, 9)
        == Eight(0x8e04ecb9, 0x85a07b5f, 0xe5030380, 0x2b4209f5,
                 0x32ca2d8c, 0x0c657a79, 0x9b27a401, 0x714260ad);
    NextRound(9);
    assert Rounds(H0, ABC, 10)
        == Eight(0x8c87346b, 0x8e04ecb9, 0x85a07b5f, 0xe5030380,
                 0x1cc92596, 0x32ca2d8c, 0x0c657a79, 0x9b27a401);
    NextRound(10);
    assert Rounds(H0, ABC, 11)
        == Eight(0x4798a3f4, 0x8c87346b, 0x8e04ecb9, 0x85a07b5f,
                 0x436b23e8, 0x1cc92596, 0x32ca2d8c, 0x0c657a79);
    NextRound(11);
    assert Rounds(H0, ABC, 12)
        == Eight(0xf71fc5a9, 0x4798a3f4, 0x8c87346b, 0x8e04ecb9,
                 0x816fd6e9, 0x436b23e8, 0x1cc92596, 0x32ca2d8c);
    NextRound(12);
    assert Rounds(H0, ABC, 13)
        == Eight(0x87912990, 0xf71fc5a9, 0x4798a3f4, 0x8c87346b,
                 0x1e578218, 0x816fd6e9, 0x436b23e8, 0x1cc92596);
    NextRound(13);
    assert Rounds(H0, ABC, 14)
        == Eight(0xd932eb16, 0x87912990, 0xf71fc5a9, 0x4798a3f4,
                 0x745a48de, 0x1e578218, 0x816fd6e9, 0x436b23e8);
    NextRound(14);
    assert Rounds(H0, ABC, 15)
        == Eight(0xc0645fde, 0xd932eb16, 0x87912990, 0xf71fc5a9,
                 0x0b92f20c, 0x745a48de, 0x1e578218, 0x816fd6e9);
    NextRound(15);
  }

  lemma AbcRounds24()
    ensures Rounds(H0, ABC, 24)
         == Eight(0xc5d53d8d, 0xa7a3623f, 0xc2606d6d, 0x9dc68b63,
                  0xaa47c347, 0x49f5114a, 0xe1257970, 0x8ada8930)
  {
    hide W, Rounds, K, ABC;
    ConstantsAt16();
    AbcWords16();
    AbcRounds16();
    NextRound(16);
    assert Rounds(H0, ABC, 17)
        == Eight(0x21da9a9b, 0xb0fa238e, 0xc0645fde, 0xd932eb16,
                 0x8034229c, 0x07590dcd, 0x0b92f20c, 0x745a48de);
    NextRound(17);
    assert Rounds(H0, ABC, 18)
        == Eight(0xc2fbd9d1, 0x21da9a9b, 0xb0fa238e, 0xc0645fde,
                 0x846ee454, 0x8034229c, 0x07590dcd, 0x0b92f20c);
    NextRound(18);
    assert Rounds(H0, ABC, 19)
        == Eight(0xfe777bbf, 0xc2fbd9d1, 0x21da9a9b, 0xb0fa238e,
                 0xcc899961, 0x846ee454, 0x8034229c, 0x07590dcd);
    NextRound(19);
    assert Rounds(H0, ABC, 20)
        == Eight(0xe1f20c33, 0xfe777bbf, 0xc2fbd9d1, 0x21da9a9b,
                 0xb0638179, 0xcc899961, 0x846ee454, 0x8034229c);
    NextRound(20);
    assert Rounds(H0, ABC, 21)
        == Eight(0x9dc68b63, 0xe1f20c33, 0xfe777bbf, 0xc2fbd9d1,
                 0x8ada8930, 0xb0638179, 0xcc899961, 0x846ee454);
    NextRound(21);
    assert Rounds(H0, ABC, 22)
        == Eight(0xc2606d6d, 0x9dc68b63, 0xe1f20c33, 0xfe777bbf,
                 0xe1257970, 0x8ada8930, 0xb0638179, 0xcc899961);
    NextRound(22);
    assert Rounds(H0, ABC, 23)
        == Eight(0xa7a3623f, 0xc2606d6d, 0x9dc68b63, 0xe1f20c33,
                 0x49f5114a, 0xe1257970, 0x8ada8930, 0xb0638179);
    NextRound(23);
  }

  lemma AbcRounds32()
    ensures Rounds(H0, ABC, 32)
         == Eight(0x73b33bf5, 0xea992a22, 0xa0060b30, 0x363482c9,
                  0xba591112, 0x0109ab3a, 0xade79437, 0x6112a3b7)
  {
    hide W, Rounds, K, ABC;
    ConstantsAt24();
    AbcWords24();
    AbcRounds24();
    NextRound(24);
    assert Rounds(H0, ABC, 25)
        == Eight(0x1c2c2838, 0xc5d53d8d, 0xa7a3623f, 0xc2606d6d,
                 0x2823ef91, 0xaa47c347, 0x49f5114a, 0xe1257970);
    NextRound(25);
    assert Rounds(H0, ABC, 26)
        == Eight(0xcde8037d, 0x1c2c2838, 0xc5d53d8d, 0xa7a3623f,
                 0x14383d8e, 0x2823ef91, 0xaa47c347, 0x49f5114a);
    NextRound(26);
    assert Rounds(H0, ABC, 27)
        == Eight(0xb62ec4bc, 0xcde8037d, 0x1c2c2838, 0xc5d53d8d,
                 0xc74c6516, 0x14383d8e, 0x2823ef91, 0xaa47c347);
    NextRound(27);
    assert Rounds(H0, ABC, 28)
        == Eight(0x77d37528, 0xb62ec4bc, 0xcde8037d, 0x1c2c2838,
                 0xedffbff8, 0xc74c6516, 0x14383d8e, 0x2823ef91);
    NextRound(28);
    assert Rounds(H0, ABC, 29)
        == Eight(0x363482c9, 0x77d37528, 0xb62ec4bc, 0xcde8037d,
                 0x6112a3b7, 0xedffbff8, 0xc74c6516, 0x14383d8e);
    NextRound(29);
    assert Rounds(H0, ABC, 30)
        == Eight(0xa0060b30, 0x363482c9, 0x77d37528, 0xb62ec4bc,
                 0xade79437, 0x6112a3b7, 0xedffbff8, 0xc74c6516);
    NextRound(30);
    assert Rounds(H0, ABC, 31)
        == Eight(0xea992a22, 0xa0060b30, 0x363482c9, 0x77d37528,
                 0x0109ab3a, 0xade79437, 0x6112a3b7, 0xedffbff8);
    NextRound(31);
  }

  lemma AbcRounds40()
    ensures Rounds(H0, ABC, 40)
         == Eight(0x79ea687a, 0x6dc57a8a, 0x34df1604, 0x41a65cb1,
                  0x1efbc0a0, 0xf0781bc8, 0xa507a53d, 0x0772a26b)
  {
    hide W, Rounds, K, ABC;
    ConstantsAt32();
    AbcWords32();
    AbcRounds32();
    NextRound(32);
    assert Rounds(H0, ABC, 33)
        == Eight(0x98e12507, 0x73b33bf5, 0xea992a22, 0xa0060b30,
                 0x9cd9f5f6, 0xba591112, 0x0109ab3a, 0xade79437);
    NextRound(33);
    assert Rounds(H0, ABC, 34)
        == Eight(0xfe604df5, 0x98e12507, 0x73b33bf5, 0xea992a22,
                 0x59249dd3, 0x9cd9f5f6, 0xba591112, 0x0109ab3a);
    NextRound(34);
    assert Rounds(H0, ABC, 35)
        == Eight(0xa9a7738c, 0xfe604df5, 0x98e12507, 0x73b33bf5,
                 0x085f3833, 0x59249dd3, 0x9cd9f5f6, 0xba591112);
    NextRound(35);
    assert Rounds(H0, ABC, 36)
        == Eight(0x65a0cfe4, 0xa9a7738c, 0xfe604df5, 0x98e12507,
                 0xf4b002d6, 0x085f3833, 0x59249dd3, 0x9cd9f5f6);
    NextRound(36);
    assert Rounds(H0, ABC, 37)
        == Eight(0x41a65cb1, 0x65a0cfe4, 0xa9a7738c, 0xfe604df5,
                 0x0772a26b, 0xf4b002d6, 0x085f3833, 0x59249dd3);
    NextRound(37);
    assert Rounds(H0, ABC, 38)
        == Eight(0x34df1604, 0x41a65cb1, 0x65a0cfe4, 0xa9a7738c,
                 0xa507a53d, 0x0772a26b, 0xf4b002d6, 0x085f3833);
    NextRound(38);
    assert Rounds(H0, ABC, 39)
        == Eight(0x6dc57a8a, 0x34df1604, 0x41a65cb1, 0x65a0cfe4,
                 0xf0781bc8, 0xa507a53d, 0x0772a26b, 0xf4b002d6);
    NextRound(39);
  }

  lemma AbcRounds48()
    ensures Rounds(H0, ABC, 48)
         == Eight(0x4172328d, 0xa14c14b0, 0x72ab4b91, 0x26628815,
                  0xfecf0bc6, 0xd57b94a9, 0xb7755da1, 0xa80f11f0)
  {
    hide W, Rounds, K, ABC;
    ConstantsAt40();
    AbcWords40();
    AbcRounds40();
    NextRound(40);
    assert Rounds(H0, ABC, 41)
        == Eight(0xd6670766, 0x79ea687a, 0x6dc57a8a, 0x34df1604,
                 0x26352d63, 0x1efbc0a0, 0xf0781bc8, 0xa507a53d);
    NextRound(41);
    assert Rounds(H0, ABC, 42)
        == Eight(0xdf46652f, 0xd6670766, 0x79ea687a, 0x6dc57a8a,
                 0x838b2711, 0x26352d63, 0x1efbc0a0, 0xf0781bc8);
    NextRound(42);
    assert Rounds(H0, ABC, 43)
        == Eight(0x17aa0dfe, 0xdf46652f, 0xd6670766, 0x79ea687a,
                 0xdecd4715, 0x838b2711, 0x26352d63, 0x1efbc0a0);
    NextRound(43);
    assert Rounds(H0, ABC, 44)
        == Eight(0x9d4baf93, 0x17aa0dfe, 0xdf46652f, 0xd6670766,
                 0xfda24c2e, 0xdecd4715, 0x838b2711, 0x26352d63);
    NextRound(44);
    assert Rounds(H0, ABC, 45)
        == Eight(0x26628815, 0x9d4baf93, 0x17aa0dfe, 0xdf46652f,
                 0xa80f11f0, 0xfda24c2e, 0xdecd4715, 0x838b2711);
    NextRound(45);
    assert Rounds(H0, ABC, 46)
        == Eight(0x72ab4b91, 0x26628815, 0x9d4baf93, 0x17aa0dfe,
                 0xb7755da1, 0xa80f11f0, 0xfda24c2e, 0xdecd4715);
    NextRound(46);
    assert Rounds(H0, ABC, 47)
        == Eight(0xa14c14b0, 0x72ab4b91, 0x26628815, 0x9d4baf93,
                 0xd57b94a9, 0xb7755da1, 0xa80f11f0, 0xfda24c2e);
    NextRound(47);
  }

  lemma AbcRounds56()
    ensures Rounds(H0, ABC, 56)
         == Eight(0x38cc9913, 0x3ec45cdb, 0xf5702fdb, 0x101fd28f,
                  0x54cb266b, 0xe50e1b4f, 0x9f4787c3, 0x529e7d00)
  {
    hide W, Rounds, K, ABC;
    ConstantsAt48();
    AbcWords48();
    AbcRounds48();
    NextRound(48);
    assert Rounds(H0, ABC, 49)
        == Eight(0x05757ceb, 0x4172328d, 0xa14c14b0, 0x72ab4b91,
                 0xbd714038, 0xfecf0bc6, 0xd57b94a9, 0xb7755da1);
    NextRound(49);
    assert Rounds(H0, ABC, 50)
        == Eight(0xf11bfaa8, 0x05757ceb, 0x4172328d, 0xa14c14b0,
                 0x6e5c390c, 0xbd714038, 0xfecf0bc6, 0xd57b94a9);
    NextRound(50);
    assert Rounds(H0, ABC, 51)
        == Eight(0x7a0508a1, 0xf11bfaa8, 0x05757ceb, 0x4172328d,
                 0x52f1ccf7, 0x6e5c390c, 0xbd714038, 0xfecf0bc6);
    NextRound(51);
    assert Rounds(H0, ABC, 52)
        == Eight(0x886e7a22, 0x7a0508a1, 0xf11bfaa8, 0x05757ceb,
                 0x49231c1e, 0x52f1ccf7, 0x6e5c390c, 0xbd714038);
    NextRound(52);
    assert Rounds(H0, ABC, 53)
        == Eight(0x101fd28f, 0x886e7a22, 0x7a0508a1, 0xf11bfaa8,
                 0x529e7d00, 0x49231c1e, 0x52f1ccf7, 0x6e5c390c);
    NextRound(53);
    assert Rounds(H0, ABC, 54)
        == Eight(0xf5702fdb, 0x101fd28f, 0x886e7a22, 0x7a0508a1,
                 0x9f4787c3, 0x529e7d00, 0x49231c1e, 0x52f1ccf7);
    NextRound(54);
    assert Rounds(H0, ABC, 55)
        == Eight(0x3ec45cdb, 0xf5702fdb, 0x101fd28f, 0x886e7a22,
                 0xe50e1b4f, 0x9f4787c3, 0x529e7d00, 0x49231c1e);
    NextRound(55);
  }

  lemma AbcRounds64()
    ensures Rounds(H0, ABC, 64)
         == Eight(0x506e3058, 0xd39a2165, 0x04d24d6c, 0xb85e2ce9,
                  0x5ef50f24, 0xfb121210, 0x948d25b6, 0x961f4894)
  {
    hide W, Rounds, K, ABC;
    ConstantsAt56();
    AbcWords56();
    AbcRounds56();
    NextRound(56);
    assert Rounds(H0, ABC, 57)
        == Eight(0xfcd1887b, 0x38cc9913, 0x3ec45cdb, 0xf5702fdb,
                 0x9b5e906c, 0x54cb266b, 0xe50e1b4f, 0x9f4787c3);
    NextRound(57);
    assert Rounds(H0, ABC, 58)
        == Eight(0xc062d46f, 0xfcd1887b, 0x38cc9913, 0x3ec45cdb,
                 0x7e44008e, 0x9b5e906c, 0x54cb266b, 0xe50e1b4f);
    NextRound(58);
    assert Rounds(H0, ABC, 59)
        == Eight(0xffb70472, 0xc062d46f, 0xfcd1887b, 0x38cc9913,
                 0x6d83bfc6, 0x7e44008e, 0x9b5e906c, 0x54cb266b);
    NextRound(59);
    assert Rounds(H0, ABC, 60)
        == Eight(0xb6ae8fff, 0xffb70472, 0xc062d46f, 0xfcd1887b,
                 0xb21bad3d, 0x6d83bfc6, 0x7e44008e, 0x9b5e906c);
    NextRound(60);
    assert Rounds(H0, ABC, 61)
        == Eight(0xb85e2ce9, 0xb6ae8fff, 0xffb70472, 0xc062d46f,
                 0x961f4894, 0xb21bad3d, 0x6d83bfc6, 0x7e44008e);
    NextRound(61);
    assert Rounds(H0, ABC, 62)
        == Eight(0x04d24d6c, 0xb85e2ce9, 0xb6ae8fff, 0xffb70472,
                 0x948d25b6, 0x961f4894, 0xb21bad3d, 0x6d83bfc6);
    NextRound(62);
    assert Rounds(H0, ABC, 63)
        == Eight(0xd39a2165, 0x04d24d6c, 0xb85e2ce9, 0xb6ae8fff,
                 0xfb121210, 0x948d25b6, 0x961f4894, 0xb21bad3d);
    NextRound(63);
  }

  lemma NoRounds()
    ensures Rounds(H0, ABC, 0)
         == Eight(0x6a09e667, 0xbb67ae85, 0x3c6ef372, 0xa54ff53a,
                  0x510e527f, 0x9b05688c, 0x1f83d9ab, 0x5be0cd19)
  {
  }

  /** The digest of "abc". */
  lemma DigestOfAbc()
    ensures Digest([0x61, 0x62, 0x63]) == [
      0xba, 0x78, 0x16, 0xbf, 0x8f, 0x01, 0xcf, 0xea, 0x41, 0x41, 0x40, 0xde, 0x5d, 0xae, 0x22, 0x23,
      0xb0, 0x03, 0x61, 0xa3, 0x96, 0x17, 0x7a, 0x9c, 0xb4, 0x10, 0xff, 0x61, 0xf2, 0x00, 0x15, 0xad]
  {
    hide Compress, W, Rounds, WordBytes, Pad, K, ABC;
    AbcPadded();
    AbcRounds64();
    OneBlock(ABC);
    AbcSum();
    AbcDigestWords();
  }

  lemma OneBlock(m: Block)
    ensures Fold(H0, m) == Compress(H0, m)
  {
    hide Compress;
    assert m[..0] == [] && m[0..] == m && Fold(H0, []) == H0;
  }

  lemma AbcSum()
    ensures Compress(H0, ABC)
         == Eight(0xba7816bf, 0x8f01cfea, 0x414140de, 0x5dae2223,
                  0xb00361a3, 0x96177a9c, 0xb410ff61, 0xf20015ad)
  {
    hide W, Rounds, K, ABC;
    AbcRounds64();
  }

  lemma AbcDigestWords()
    ensures WordBytes(0xba7816bf) == [0xba, 0x78, 0x16, 0xbf]
    ensures WordBytes(0x8f01cfea) == [0x8f, 0x01, 0xcf, 0xea]
    ensures WordBytes(0x414140de) == [0x41, 0x41, 0x40, 0xde]
    ensures WordBytes(0x5dae2223) == [0x5d, 0xae, 0x22, 0x23]
    ensures WordBytes(0xb00361a3) == [0xb0, 0x03, 0x61, 0xa3]
    ensures WordBytes(0x96177a9c) == [0x96, 0x17, 0x7a, 0x9c]
    ensures WordBytes(0xb410ff61) == [0xb4, 0x10, 0xff, 0x61]
    ensures WordBytes(0xf20015ad) == [0xf2, 0x00, 0x15, 0xad]
  {
  }
}
