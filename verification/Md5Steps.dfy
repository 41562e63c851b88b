/** `md5_transform`: the 64 operations on one block (section 3.4 of RFC 1321), and a published digest
    computed with them. */
module Md5Steps {
  import opened Xxtea
  import opened WordCodec
  import opened Md5

  function Sum(a: Word, b: Word): Word {
    a + b
  }

  // the four auxiliary functions

  function F(x: Word, y: Word, z: Word): Word {
    (x & y) | (!x & z)
  }

  function G(x: Word, y: Word, z: Word): Word {
    (x & z) | (y & !z)
  }

  function H(x: Word, y: Word, z: Word): Word {
    x ^ y ^ z
  }

  function I(x: Word, y: Word, z: Word): Word {
    y ^ (x | !z)
  }

  function Mixed(i: nat, x: Word, y: Word, z: Word): Word {
    if i < 16 then F(x, y, z) else if i < 32 then G(x, y, z) else if i < 48 then H(x, y, z) else I(x, y, z)
  }

  /** Which word of the block operation `i` adds. */
  function WordIndex(i: nat): (k: nat)
    requires i < 64
    ensures k < 16
  {
    if i < 16 then i else if i < 32 then (5 * i + 1) % 16 else if i < 48 then (3 * i + 5) % 16 else 7 * i % 16
  }

  function Pick4(j: nat, a: nat, b: nat, c: nat, d: nat): nat {
    if j % 4 == 0 then a else if j % 4 == 1 then b else if j % 4 == 2 then c else d
  }

  function ShiftOf(i: nat): (s: nat)
    ensures 4 <= s < 24
  {
    if i < 16 then Pick4(i, 7, 12, 17, 22) else if i < 32 then Pick4(i, 5, 9, 14, 20)
    else if i < 48 then Pick4(i, 4, 11, 16, 23) else Pick4(i, 6, 10, 15, 21)
  }

  function Rotl(x: Word, n: nat): Word
    requires 0 < n < 32
  {
    (x << n) | (x >> (32 - n))
  }

  /** The integer parts of 2^32 times the sines of 1 to 64. */
  function SineOf(i: nat): Word {
    match i
    case 0 => 0xD76A_A478 case 1 => 0xE8C7_B756 case 2 => 0x2420_70DB case 3 => 0xC1BD_CEEE
    case 4 => 0xF57C_0FAF case 5 => 0x4787_C62A case 6 => 0xA830_4613 case 7 => 0xFD46_9501
    case 8 => 0x6980_98D8 case 9 => 0x8B44_F7AF case 10 => 0xFFFF_5BB1 case 11 => 0x895C_D7BE
    case 12 => 0x6B90_1122 case 13 => 0xFD98_7193 case 14 => 0xA679_438E case 15 => 0x49B4_0821
    case 16 => 0xF61E_2562 case 17 => 0xC040_B340 case 18 => 0x265E_5A51 case 19 => 0xE9B6_C7AA
    case 20 => 0xD62F_105D case 21 => 0x0244_1453 case 22 => 0xD8A1_E681 case 23 => 0xE7D3_FBC8
    case 24 => 0x21E1_CDE6 case 25 => 0xC337_07D6 case 26 => 0xF4D5_0D87 case 27 => 0x455A_14ED
    case 28 => 0xA9E3_E905 case 29 => 0xFCEF_A3F8 case 30 => 0x676F_02D9 case 31 => 0x8D2A_4C8A
    case 32 => 0xFFFA_3942 case 33 => 0x8771_F681 case 34 => 0x6D9D_6122 case 35 => 0xFDE5_380C
    case 36 => 0xA4BE_EA44 case 37 => 0x4BDE_CFA9 case 38 => 0xF6BB_4B60 case 39 => 0xBEBF_BC70
    case 40 => 0x289B_7EC6 case 41 => 0xEAA1_27FA case 42 => 0xD4EF_3085 case 43 => 0x0488_1D05
    case 44 => 0xD9D4_D039 case 45 => 0xE6DB_99E5 case 46 => 0x1FA2_7CF8 case 47 => 0xC4AC_5665
    case 48 => 0xF429_2244 case 49 => 0x432A_FF97 case 50 => 0xAB94_23A7 case 51 => 0xFC93_A039
    case 52 => 0x655B_59C3 case 53 => 0x8F0C_CC92 case 54 => 0xFFEF_F47D case 55 => 0x8584_5DD1
    case 56 => 0x6FA8_7E4F case 57 => 0xFE2C_E6E0 case 58 => 0xA301_4314 case 59 => 0x4E08_11A1
    case 60 => 0xF753_7E82 case 61 => 0xBD3A_F235 case 62 => 0x2AD7_D2BB case _ => 0xEB86_D391
  }

  function Operand(i: nat, x: seq<Word>, st: State): Word
    requires i < 64 && |x| == 16
  {
    Sum(Sum(Sum(st.a, Mixed(i, st.b, st.c, st.d)), x[WordIndex(i)]), SineOf(i))
  }

  /** Operation `i`; the four words move on by one place. */
  function Operation(i: nat, x: seq<Word>, st: State): State
    requires i < 64 && |x| == 16
  {
    State(st.d, Sum(st.b, Rotl(Operand(i, x, st), ShiftOf(i))), st.b, st.c)
  }

  function Operations(n: nat, x: seq<Word>, st: State): State
    requires n <= 64 && |x| == 16
  {
    if n == 0 then st else Operation(n - 1, x, Operations(n - 1, x, st))
  }

  function Added(st: State, r: State): State {
    State(Sum(st.a, r.a), Sum(st.b, r.b), Sum(st.c, r.c), Sum(st.d, r.d))
  }

  /** The whole of `md5_transform`; it is only ever given blocks of 64 bytes. */
  function Transform(st: State, block: Bytes): State {
    if |block| == 64 then Added(st, Operations(64, Gather(block), st)) else st
  }

  // ---- the operations as the source lists them

  /** One line of the source: `aa` becomes `bb` plus the rotated sum; `f` is the auxiliary function's
      value and `kk` the word of the block. */
  method Step(ghost i: nat, ghost x: seq<Word>, ghost st: State, aa: Word, bb: Word, cc: Word, dd: Word,
              f: Word, kk: Word, s: nat, tt: Word) returns (r: Word)
    requires i < 64 && |x| == 16 && Operations(i, x, st) == State(aa, bb, cc, dd)
    requires f == (if i < 16 then F(bb, cc, dd) else if i < 32 then G(bb, cc, dd) else if i < 48 then H(bb, cc, dd)
                   else I(bb, cc, dd))
    requires kk == x[WordIndex(i)] && s == ShiftOf(i) && tt == SineOf(i)
    ensures Operations(i + 1, x, st) == State(dd, r, bb, cc)
  {
    hide F, G, H, I, WordIndex, ShiftOf, SineOf, Sum, Rotl;
    r := Sum(bb, Rotl(Sum(Sum(Sum(aa, f), kk), tt), s));
  }

  lemma FirstTable0()
    ensures WordIndex(0) == 0 && ShiftOf(0) == 7 && SineOf(0) == 0xD76A_A478
    ensures WordIndex(1) == 1 && ShiftOf(1) == 12 && SineOf(1) == 0xE8C7_B756
    ensures WordIndex(2) == 2 && ShiftOf(2) == 17 && SineOf(2) == 0x2420_70DB
    ensures WordIndex(3) == 3 && ShiftOf(3) == 22 && SineOf(3) == 0xC1BD_CEEE
  {}

  lemma FirstTable1()
    ensures WordIndex(4) == 4 && ShiftOf(4) == 7 && SineOf(4) == 0xF57C_0FAF
    ensures WordIndex(5) == 5 && ShiftOf(5) == 12 && SineOf(5) == 0x4787_C62A
    ensures WordIndex(6) == 6 && ShiftOf(6) == 17 && SineOf(6) == 0xA830_4613
    ensures WordIndex(7) == 7 && ShiftOf(7) == 22 && SineOf(7) == 0xFD46_9501
  {}

  lemma FirstTable2()
    ensures WordIndex(8) == 8 && ShiftOf(8) == 7 && SineOf(8) == 0x6980_98D8
    ensures WordIndex(9) == 9 && ShiftOf(9) == 12 && SineOf(9) == 0x8B44_F7AF
    ensures WordIndex(10) == 10 && ShiftOf(10) == 17 && SineOf(10) == 0xFFFF_5BB1
    ensures WordIndex(11) == 11 && ShiftOf(11) == 22 && SineOf(11) == 0x895C_D7BE
  {}

  lemma FirstTable3()
    ensures WordIndex(12) == 12 && ShiftOf(12) == 7 && SineOf(12) == 0x6B90_1122
    ensures WordIndex(13) == 13 && ShiftOf(13) == 12 && SineOf(13) == 0xFD98_7193
    ensures WordIndex(14) == 14 && ShiftOf(14) == 17 && SineOf(14) == 0xA679_438E
    ensures WordIndex(15) == 15 && ShiftOf(15) == 22 && SineOf(15) == 0x49B4_0821
  {}

  method FirstRound(x: seq<Word>, ghost st: State, a0: Word, b0: Word, c0: Word, d0: Word)
      returns (a: Word, b: Word, c: Word, d: Word)
    requires |x| == 16 && Operations(0, x, st) == State(a0, b0, c0, d0)
    ensures Operations(16, x, st) == State(a, b, c, d)
  {
    hide Operations, F, G, H, I, WordIndex, ShiftOf, SineOf;
    FirstTable0();
    FirstTable1();
    FirstTable2();
    FirstTable3();
    a, b, c, d := a0, b0, c0, d0;
    a := Step(0, x, st, a, b, c, d, F(b, c, d), x[0], 7, 0xD76A_A478);
    d := Step(1, x, st, d, a, b, c, F(a, b, c), x[1], 12, 0xE8C7_B756);
    c := Step(2, x, st, c, d, a, b, F(d, a, b), x[2], 17, 0x2420_70DB);
    b := Step(3, x, st, b, c, d, a, F(c, d, a), x[3], 22, 0xC1BD_CEEE);
    a := Step(4, x, st, a, b, c, d, F(b, c, d), x[4], 7, 0xF57C_0FAF);
    d := Step(5, x, st, d, a, b, c, F(a, b, c), x[5], 12, 0x4787_C62A);
    c := Step(6, x, st, c, d, a, b, F(d, a, b), x[6], 17, 0xA830_4613);
    b := Step(7, x, st, b, c, d, a, F(c, d, a), x[7], 22, 0xFD46_9501);
    a := Step(8, x, st, a, b, c, d, F(b, c, d), x[8], 7, 0x6980_98D8);
    d := Step(9, x, st, d, a, b, c, F(a, b, c), x[9], 12, 0x8B44_F7AF);
    c := Step(10, x, st, c, d, a, b, F(d, a, b), x[10], 17, 0xFFFF_5BB1);
    b := Step(11, x, st, b, c, d, a, F(c, d, a), x[11], 22, 0x895C_D7BE);
    a := Step(12, x, st, a, b, c, d, F(b, c, d), x[12], 7, 0x6B90_1122);
    d := Step(13, x, st, d, a, b, c, F(a, b, c), x[13], 12, 0xFD98_7193);
    c := Step(14, x, st, c, d, a, b, F(d, a, b), x[14], 17, 0xA679_438E);
    b := Step(15, x, st, b, c, d, a, F(c, d, a), x[15], 22, 0x49B4_0821);
  }

  lemma SecondTable0()
    ensures WordIndex(16) == 1 && ShiftOf(16) == 5 && SineOf(16) == 0xF61E_2562
    ensures WordIndex(17) == 6 && ShiftOf(17) == 9 && SineOf(17) == 0xC040_B340
    ensures WordIndex(18) == 11 && ShiftOf(18) == 14 && SineOf(18) == 0x265E_5A51
    ensures WordIndex(19) == 0 && ShiftOf(19) == 20 && SineOf(19) == 0xE9B6_C7AA
  {}

  lemma SecondTable1()
    ensures WordIndex(20) == 5 && ShiftOf(20) == 5 && SineOf(20) == 0xD62F_105D
    ensures WordIndex(21) == 10 && ShiftOf(21) == 9 && SineOf(21) == 0x0244_1453
    ensures WordIndex(22) == 15 && ShiftOf(22) == 14 && SineOf(22) == 0xD8A1_E681
    ensures WordIndex(23) == 4 && ShiftOf(23) == 20 && SineOf(23) == 0xE7D3_FBC8
  {}

  lemma SecondTable2()
    ensures WordIndex(24) == 9 && ShiftOf(24) == 5 && SineOf(24) == 0x21E1_CDE6
    ensures WordIndex(25) == 14 && ShiftOf(25) == 9 && SineOf(25) == 0xC337_07D6
    ensures WordIndex(26) == 3 && ShiftOf(26) == 14 && SineOf(26) == 0xF4D5_0D87
    ensures WordIndex(27) == 8 && ShiftOf(27) == 20 && SineOf(27) == 0x455A_14ED
  {}

  lemma SecondTable3()
    ensures WordIndex(28) == 13 && ShiftOf(28) == 5 && SineOf(28) == 0xA9E3_E905
    ensures WordIndex(29) == 2 && ShiftOf(29) == 9 && SineOf(29) == 0xFCEF_A3F8
    ensures WordIndex(30) == 7 && ShiftOf(30) == 14 && SineOf(30) == 0x676F_02D9
    ensures WordIndex(31) == 12 && ShiftOf(31) == 20 && SineOf(31) == 0x8D2A_4C8A
  {}

  method SecondRound(x: seq<Word>, ghost st: State, a0: Word, b0: Word, c0: Word, d0: Word)
      returns (a: Word, b: Word, c: Word, d: Word)
    requires |x| == 16 && Operations(16, x, st) == State(a0, b0, c0, d0)
    ensures Operations(32, x, st) == State(a, b, c, d)
  {
    hide Operations, F, G, H, I, WordIndex, ShiftOf, SineOf;
    SecondTable0();
    SecondTable1();
    SecondTable2();
    SecondTable3();
    a, b, c, d := a0, b0, c0, d0;
    a := Step(16, x, st, a, b, c, d, G(b, c, d), x[1], 5, 0xF61E_2562);
    d := Step(17, x, st, d, a, b, c, G(a, b, c), x[6], 9, 0xC040_B340);
    c := Step(18, x, st, c, d, a, b, G(d, a, b), x[11], 14, 0x265E_5A51);
    b := Step(19, x, st, b, c, d, a, G(c, d, a), x[0], 20, 0xE9B6_C7AA);
    a := Step(20, x, st, a, b, c, d, G(b, c, d), x[5], 5, 0xD62F_105D);
    d := Step(21, x, st, d, a, b, c, G(a, b, c), x[10], 9, 0x0244_1453);
    c := Step(22, x, st, c, d, a, b, G(d, a, b), x[15], 14, 0xD8A1_E681);
    b := Step(23, x, st, b, c, d, a, G(c, d, a), x[4], 20, 0xE7D3_FBC8);
    a := Step(24, x, st, a, b, c, d, G(b, c, d), x[9], 5, 0x21E1_CDE6);
    d := Step(25, x, st, d, a, b, c, G(a, b, c), x[14], 9, 0xC337_07D6);
    c := Step(26, x, st, c, d, a, b, G(d, a, b), x[3], 14, 0xF4D5_0D87);
    b := Step(27, x, st, b, c, d, a, G(c, d, a), x[8], 20, 0x455A_14ED);
    a := Step(28, x, st, a, b, c, d, G(b, c, d), x[13], 5, 0xA9E3_E905);
    d := Step(29, x, st, d, a, b, c, G(a, b, c), x[2], 9, 0xFCEF_A3F8);
    c := Step(30, x, st, c, d, a, b, G(d, a, b), x[7], 14, 0x676F_02D9);
    b := Step(31, x, st, b, c, d, a, G(c, d, a), x[12], 20, 0x8D2A_4C8A);
  }

  lemma ThirdTable0()
    ensures WordIndex(32) == 5 && ShiftOf(32) == 4 && SineOf(32) == 0xFFFA_3942
    ensures WordIndex(33) == 8 && ShiftOf(33) == 11 && SineOf(33) == 0x8771_F681
    ensures WordIndex(34) == 11 && ShiftOf(34) == 16 && SineOf(34) == 0x6D9D_6122
    ensures WordIndex(35) == 14 && ShiftOf(35) == 23 && SineOf(35) == 0xFDE5_380C
  {}

  lemma ThirdTable1()
    ensures WordIndex(36) == 1 && ShiftOf(36) == 4 && SineOf(36) == 0xA4BE_EA44
    ensures WordIndex(37) == 4 && ShiftOf(37) == 11 && SineOf(37) == 0x4BDE_CFA9
    ensures WordIndex(38) == 7 && ShiftOf(38) == 16 && SineOf(38) == 0xF6BB_4B60
    ensures WordIndex(39) == 10 && ShiftOf(39) == 23 && SineOf(39) == 0xBEBF_BC70
  {}

  lemma ThirdTable2()
    ensures WordIndex(40) == 13 && ShiftOf(40) == 4 && SineOf(40) == 0x289B_7EC6
    ensures WordIndex(41) == 0 && ShiftOf(41) == 11 && SineOf(41) == 0xEAA1_27FA
    ensures WordIndex(42) == 3 && ShiftOf(42) == 16 && SineOf(42) == 0xD4EF_3085
    ensures WordIndex(43) == 6 && ShiftOf(43) == 23 && SineOf(43) == 0x0488_1D05
  {}

  lemma ThirdTable3()
    ensures WordIndex(44) == 9 && ShiftOf(44) == 4 && SineOf(44) == 0xD9D4_D039
    ensures WordIndex(45) == 12 && ShiftOf(45) == 11 && SineOf(45) == 0xE6DB_99E5
    ensures WordIndex(46) == 15 && ShiftOf(46) == 16 && SineOf(46) == 0x1FA2_7CF8
    ensures WordIndex(47) == 2 && ShiftOf(47) == 23 && SineOf(47) == 0xC4AC_5665
  {}

  method ThirdRound(x: seq<Word>, ghost st: State, a0: Word, b0: Word, c0: Word, d0: Word)
      returns (a: Word, b: Word, c: Word, d: Word)
    requires |x| == 16 && Operations(32, x, st) == State(a0, b0, c0, d0)
    ensures Operations(48, x, st) == State(a, b, c, d)
  {
    hide Operations, F, G, H, I, WordIndex, ShiftOf, SineOf;
    ThirdTable0();
    ThirdTable1();
    ThirdTable2();
    ThirdTable3();
    a, b, c, d := a0, b0, c0, d0;
    a := Step(32, x, st, a, b, c, d, H(b, c, d), x[5], 4, 0xFFFA_3942);
    d := Step(33, x, st, d, a, b, c, H(a, b, c), x[8], 11, 0x8771_F681);
    c := Step(34, x, st, c, d, a, b, H(d, a, b), x[11], 16, 0x6D9D_6122);
    b := Step(35, x, st, b, c, d, a, H(c, d, a), x[14], 23, 0xFDE5_380C);
    a := Step(36, x, st, a, b, c, d, H(b, c, d), x[1], 4, 0xA4BE_EA44);
    d := Step(37, x, st, d, a, b, c, H(a, b, c), x[4], 11, 0x4BDE_CFA9);
    c := Step(38, x, st, c, d, a, b, H(d, a, b), x[7], 16, 0xF6BB_4B60);
    b := Step(39, x, st, b, c, d, a, H(c, d, a), x[10], 23, 0xBEBF_BC70);
    a := Step(40, x, st, a, b, c, d, H(b, c, d), x[13], 4, 0x289B_7EC6);
    d := Step(41, x, st, d, a, b, c, H(a, b, c), x[0], 11, 0xEAA1_27FA);
    c := Step(42, x, st, c, d, a, b, H(d, a, b), x[3], 16, 0xD4EF_3085);
    b := Step(43, x, st, b, c, d, a, H(c, d, a), x[6], 23, 0x0488_1D05);
    a := Step(44, x, st, a, b, c, d, H(b, c, d), x[9], 4, 0xD9D4_D039);
    d := Step(45, x, st, d, a, b, c, H(a, b, c), x[12], 11, 0xE6DB_99E5);
    c := Step(46, x, st, c, d, a, b, H(d, a, b), x[15], 16, 0x1FA2_7CF8);
    b := Step(47, x, st, b, c, d, a, H(c, d, a), x[2], 23, 0xC4AC_5665);
  }

  lemma FourthTable0()
    ensures WordIndex(48) == 0 && ShiftOf(48) == 6 && SineOf(48) == 0xF429_2244
    ensures WordIndex(49) == 7 && ShiftOf(49) == 10 && SineOf(49) == 0x432A_FF97
    ensures WordIndex(50) == 14 && ShiftOf(50) == 15 && SineOf(50) == 0xAB94_23A7
    ensures WordIndex(51) == 5 && ShiftOf(51) == 21 && SineOf(51) == 0xFC93_A039
  {}

  lemma FourthTable1()
    ensures WordIndex(52) == 12 && ShiftOf(52) == 6 && SineOf(52) == 0x655B_59C3
    ensures WordIndex(53) == 3 && ShiftOf(53) == 10 && SineOf(53) == 0x8F0C_CC92
    ensures WordIndex(54) == 10 && ShiftOf(54) == 15 && SineOf(54) == 0xFFEF_F47D
    ensures WordIndex(55) == 1 && ShiftOf(55) == 21 && SineOf(55) == 0x8584_5DD1
  {}

  lemma FourthTable2()
    ensures WordIndex(56) == 8 && ShiftOf(56) == 6 && SineOf(56) == 0x6FA8_7E4F
    ensures WordIndex(57) == 15 && ShiftOf(57) == 10 && SineOf(57) == 0xFE2C_E6E0
    ensures WordIndex(58) == 6 && ShiftOf(58) == 15 && SineOf(58) == 0xA301_4314
    ensures WordIndex(59) == 13 && ShiftOf(59) == 21 && SineOf(59) == 0x4E08_11A1
  {}

  lemma FourthTable3()
    ensures WordIndex(60) == 4 && ShiftOf(60) == 6 && SineOf(60) == 0xF753_7E82
    ensures WordIndex(61) == 11 && ShiftOf(61) == 10 && SineOf(61) == 0xBD3A_F235
    ensures WordIndex(62) == 2 && ShiftOf(62) == 15 && SineOf(62) == 0x2AD7_D2BB
    ensures WordIndex(63) == 9 && ShiftOf(63) == 21 && SineOf(63) == 0xEB86_D391
  {}

  method FourthRound(x: seq<Word>, ghost st: State, a0: Word, b0: Word, c0: Word, d0: Word)
      returns (a: Word, b: Word, c: Word, d: Word)
    requires |x| == 16 && Operations(48, x, st) == State(a0, b0, c0, d0)
    ensures Operations(64, x, st) == State(a, b, c, d)
  {
    hide Operations, F, G, H, I, WordIndex, ShiftOf, SineOf;
    FourthTable0();
    FourthTable1();
    FourthTable2();
    FourthTable3();
    a, b, c, d := a0, b0, c0, d0;
    a := Step(48, x, st, a, b, c, d, I(b, c, d), x[0], 6, 0xF429_2244);
    d := Step(49, x, st, d, a, b, c, I(a, b, c), x[7], 10, 0x432A_FF97);
    c := Step(50, x, st, c, d, a, b, I(d, a, b), x[14], 15, 0xAB94_23A7);
    b := Step(51, x, st, b, c, d, a, I(c, d, a), x[5], 21, 0xFC93_A039);
    a := Step(52, x, st, a, b, c, d, I(b, c, d), x[12], 6, 0x655B_59C3);
    d := Step(53, x, st, d, a, b, c, I(a, b, c), x[3], 10, 0x8F0C_CC92);
    c := Step(54, x, st, c, d, a, b, I(d, a, b), x[10], 15, 0xFFEF_F47D);
    b := Step(55, x, st, b, c, d, a, I(c, d, a), x[1], 21, 0x8584_5DD1);
    a := Step(56, x, st, a, b, c, d, I(b, c, d), x[8], 6, 0x6FA8_7E4F);
    d := Step(57, x, st, d, a, b, c, I(a, b, c), x[15], 10, 0xFE2C_E6E0);
    c := Step(58, x, st, c, d, a, b, I(d, a, b), x[6], 15, 0xA301_4314);
    b := Step(59, x, st, b, c, d, a, I(c, d, a), x[13], 21, 0x4E08_11A1);
    a := Step(60, x, st, a, b, c, d, I(b, c, d), x[4], 6, 0xF753_7E82);
    d := Step(61, x, st, d, a, b, c, I(a, b, c), x[11], 10, 0xBD3A_F235);
    c := Step(62, x, st, c, d, a, b, I(d, a, b), x[2], 15, 0x2AD7_D2BB);
    b := Step(63, x, st, b, c, d, a, I(c, d, a), x[9], 21, 0xEB86_D391);
  }

  /** The block's words, the four rounds, and the sums with the state before. */
  method TransformBlock(st: State, block: Bytes) returns (r: State)
    requires |block| == 64
    ensures r == Transform(st, block)
  {
    hide Operations, Gather, ToWords, Sum;
    var x := ToUint32Array(block, false);
    BlockWords(block);
    assert Operations(0, x, st) == st by { NoOperations(x, st); }
    var a, b, c, d := st.a, st.b, st.c, st.d;
    a, b, c, d := FirstRound(x, st, a, b, c, d);
    a, b, c, d := SecondRound(x, st, a, b, c, d);
    a, b, c, d := ThirdRound(x, st, a, b, c, d);
    a, b, c, d := FourthRound(x, st, a, b, c, d);
    r := State(Sum(st.a, a), Sum(st.b, b), Sum(st.c, c), Sum(st.d, d));
  }

  lemma BlockWords(block: Bytes)
    requires |block| == 64
    ensures ToWords(block, false) == Gather(block) && |Gather(block)| == 16
  {}

  lemma NoOperations(x: seq<Word>, st: State)
    requires |x| == 16
    ensures Operations(0, x, st) == st
  {}
}
