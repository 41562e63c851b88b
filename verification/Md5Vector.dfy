/** A published digest, computed operation by operation: "abc" has the digest
    900150983cd24fb0d6963f7d28e17f72 (section A.5 of RFC 1321). */
module Md5Vector {
  import ByteDigits
  import opened Xxtea
  import opened WordCodec
  import opened Md5Counter
  import opened Md5
  import opened Md5Steps

  /** The words of the padded message. */
  const ABC: seq<Word> := [
    0x8063_6261, 0x0000_0000, 0x0000_0000, 0x0000_0000, 0x0000_0000, 0x0000_0000,
    0x0000_0000, 0x0000_0000, 0x0000_0000, 0x0000_0000, 0x0000_0000, 0x0000_0000,
    0x0000_0000, 0x0000_0000, 0x0000_0018, 0x0000_0000]

  /** The state after `n` operations. */
  ghost predicate Reached(n: nat, a: Word, b: Word, c: Word, d: Word) {
    n <= 64 && Operations(n, ABC, Initial()) == State(a, b, c, d)
  }

  lemma Next(i: nat, k: nat, s: nat, t: Word, f: Word, a: Word, b: Word, c: Word, d: Word, value: Word)
    requires i < 64 && Reached(i, a, b, c, d) && f == Mixed(i, b, c, d)
    requires k == WordIndex(i) && s == ShiftOf(i) && t == SineOf(i)
    requires value == Sum(b, Rotl(Sum(Sum(Sum(a, f), ABC[k]), t), s))
    ensures Reached(i + 1, d, value, b, c)
  {
    hide Mixed, Sum, Rotl, WordIndex, ShiftOf, SineOf, Initial, ABC;
  }

  lemma AbcFirst0()
    requires Reached(0, 0x6745_2301, 0xEFCD_AB89, 0x98BA_DCFE, 0x1032_5476)
    ensures Reached(4, 0xD6D1_17B4, 0x7AD9_56F2, 0x2F6F_BD72, 0x344A_8432)
  {
    hide Reached, WordIndex, ShiftOf, SineOf;
    FirstTable0();
    Next(0, 0, 7, 0xD76A_A478, 0x98BA_DCFE,
         0x6745_2301, 0xEFCD_AB89, 0x98BA_DCFE, 0x1032_5476, 0xD6D1_17B4);
    Next(1, 1, 12, 0xE8C7_B756, 0xCEEB_CBCA,
         0x1032_5476, 0xD6D1_17B4, 0xEFCD_AB89, 0x98BA_DCFE, 0x344A_8432);
    Next(2, 2, 17, 0x2420_70DB, 0xDFC5_2FB9,
         0x98BA_DCFE, 0x344A_8432, 0xD6D1_17B4, 0xEFCD_AB89, 0x2F6F_BD72);
    Next(3, 3, 22, 0xC1BD_CEEE, 0xF4DA_86B6,
         0xEFCD_AB89, 0x2F6F_BD72, 0x344A_8432, 0xD6D1_17B4, 0x7AD9_56F2);
  }

  lemma AbcFirst1()
    requires Reached(4, 0xD6D1_17B4, 0x7AD9_56F2, 0x2F6F_BD72, 0x344A_8432)
    ensures Reached(8, 0xC737_41EF, 0x928D_99F6, 0x207D_C67B, 0x8BAC_3051)
  {
    hide Reached, WordIndex, ShiftOf, SineOf;
    FirstTable1();
    Next(4, 4, 7, 0xF57C_0FAF, 0x2E4B_9472,
         0xD6D1_17B4, 0x7AD9_56F2, 0x2F6F_BD72, 0x344A_8432, 0xC737_41EF);
    Next(5, 5, 12, 0x4787_C62A, 0x6A59_FCF2,
         0x344A_8432, 0xC737_41EF, 0x7AD9_56F2, 0x2F6F_BD72, 0x8BAC_3051);
    Next(6, 6, 17, 0xA830_4613, 0xF375_46E3,
         0x2F6F_BD72, 0x8BAC_3051, 0xC737_41EF, 0x7AD9_56F2, 0x207D_C67B);
    Next(7, 7, 22, 0xFD46_9501, 0xC72E_01D5,
         0x7AD9_56F2, 0x207D_C67B, 0x8BAC_3051, 0xC737_41EF, 0x928D_99F6);
  }

  lemma AbcFirst2()
    requires Reached(8, 0xC737_41EF, 0x928D_99F6, 0x207D_C67B, 0x8BAC_3051)
    ensures Reached(12, 0x854B_3712, 0x5ED4_9596, 0x3020_401C, 0x74E2_F284)
  {
    hide Reached, WordIndex, ShiftOf, SineOf;
    FirstTable2();
    Next(8, 8, 7, 0x6980_98D8, 0x092D_A073,
         0xC737_41EF, 0x928D_99F6, 0x207D_C67B, 0x8BAC_3051, 0x854B_3712);
    Next(9, 9, 12, 0x8B44_F7AF, 0xA03D_D17B,
         0x8BAC_3051, 0x854B_3712, 0x928D_99F6, 0x207D_C67B, 0x74E2_F284);
    Next(10, 10, 17, 0xFFFF_5BB1, 0x864F_3B72,
         0x207D_C67B, 0x74E2_F284, 0x854B_3712, 0x928D_99F6, 0x3020_401C);
    Next(11, 11, 22, 0x895C_D7BE, 0xB56B_7706,
         0x928D_99F6, 0x3020_401C, 0x74E2_F284, 0x854B_3712, 0x5ED4_9596);
  }

  lemma AbcFirst3()
    requires Reached(12, 0x854B_3712, 0x5ED4_9596, 0x3020_401C, 0x74E2_F284)
    ensures Reached(16, 0xDDA9_B9A6, 0x72AF_F2E0, 0xE396_856B, 0xA105_1895)
  {
    hide Reached, WordIndex, ShiftOf, SineOf;
    FirstTable3();
    Next(12, 12, 7, 0x6B90_1122, 0x3022_6214,
         0x854B_3712, 0x5ED4_9596, 0x3020_401C, 0x74E2_F284, 0xDDA9_B9A6);
    Next(13, 13, 12, 0xFD98_7193, 0x7C80_D19E,
         0x74E2_F284, 0xDDA9_B9A6, 0x5ED4_9596, 0x3020_401C, 0xA105_1895);
    Next(14, 14, 17, 0xA679_438E, 0xDFD1_9D86,
         0x3020_401C, 0xA105_1895, 0xDDA9_B9A6, 0x5ED4_9596, 0xE396_856B);
    Next(15, 15, 22, 0x49B4_0821, 0xBD2D_3885,
         0x5ED4_9596, 0xE396_856B, 0xA105_1895, 0xDDA9_B9A6, 0x72AF_F2E0);
  }

  lemma AbcSecond0()
    requires Reached(16, 0xDDA9_B9A6, 0x72AF_F2E0, 0xE396_856B, 0xA105_1895)
    ensures Reached(20, 0x3E9E_9126, 0xB5B2_04E4, 0xE25E_1652, 0x4A1D_804E)
  {
    hide Reached, WordIndex, ShiftOf, SineOf;
    SecondTable0();
    Next(16, 1, 5, 0xF61E_2562, 0x6297_95EA,
         0xDDA9_B9A6, 0x72AF_F2E0, 0xE396_856B, 0xA105_1895, 0x3E9E_9126);
    Next(17, 6, 9, 0xC040_B340, 0x32BF_F3A2,
         0xA105_1895, 0x3E9E_9126, 0x72AF_F2E0, 0xE396_856B, 0x4A1D_804E);
    Next(18, 11, 14, 0x265E_5A51, 0x4E1D_8146,
         0xE396_856B, 0x4A1D_804E, 0x3E9E_9126, 0x72AF_F2E0, 0xE25E_1652);
    Next(19, 0, 20, 0xE9B6_C7AA, 0x621F_104A,
         0x72AF_F2E0, 0xE25E_1652, 0x4A1D_804E, 0x3E9E_9126, 0xB5B2_04E4);
  }

  lemma AbcSecond1()
    requires Reached(20, 0x3E9E_9126, 0xB5B2_04E4, 0xE25E_1652, 0x4A1D_804E)
    ensures Reached(24, 0x59A8_FFDA, 0x4709_2C07, 0xABFC_7920, 0x6D00_2F1E)
  {
    hide Reached, WordIndex, ShiftOf, SineOf;
    SecondTable1();
    Next(20, 5, 5, 0xD62F_105D, 0xA052_1654,
         0x3E9E_9126, 0xB5B2_04E4, 0xE25E_1652, 0x4A1D_804E, 0x59A8_FFDA);
    Next(21, 10, 9, 0x0244_1453, 0x55A8_16F6,
         0x4A1D_804E, 0x59A8_FFDA, 0xB5B2_04E4, 0xE25E_1652, 0x6D00_2F1E);
    Next(22, 15, 14, 0xD8A1_E681, 0x6D08_FF1E,
         0xE25E_1652, 0x6D00_2F1E, 0x59A8_FFDA, 0xB5B2_04E4, 0xABFC_7920);
    Next(23, 4, 20, 0xE7D3_FBC8, 0x2DA8_7904,
         0xB5B2_04E4, 0xABFC_7920, 0x6D00_2F1E, 0x59A8_FFDA, 0x4709_2C07);
  }

  lemma AbcSecond2()
    requires Reached(24, 0x59A8_FFDA, 0x4709_2C07, 0xABFC_7920, 0x6D00_2F1E)
    ensures Reached(28, 0xB7F2_68CF, 0x786A_CB8F, 0xFE16_23B1, 0x0938_8EFF)
  {
    hide Reached, WordIndex, ShiftOf, SineOf;
    SecondTable2();
    Next(24, 9, 5, 0x21E1_CDE6, 0xC7FC_7C26,
         0x59A8_FFDA, 0x4709_2C07, 0xABFC_7920, 0x6D00_2F1E, 0xB7F2_68CF);
    Next(25, 14, 9, 0xC337_07D6, 0xE7F1_6C07,
         0x6D00_2F1E, 0xB7F2_68CF, 0x4709_2C07, 0xABFC_7920, 0x0938_8EFF);
    Next(26, 3, 14, 0xF4D5_0D87, 0xB1FA_4CCF,
         0xABFC_7920, 0x0938_8EFF, 0xB7F2_68CF, 0x4709_2C07, 0xFE16_23B1);
    Next(27, 8, 20, 0x455A_14ED, 0xBE1A_A6B1,
         0x4709_2C07, 0xFE16_23B1, 0x0938_8EFF, 0xB7F2_68CF, 0x786A_CB8F);
  }

  lemma AbcSecond3()
    requires Reached(28, 0xB7F2_68CF, 0x786A_CB8F, 0xFE16_23B1, 0x0938_8EFF)
    ensures Reached(32, 0x790A_77FB, 0x7263_42D3, 0xA628_84AA, 0x9F47_E4F8)
  {
    hide Reached, WordIndex, ShiftOf, SineOf;
    SecondTable3();
    Next(28, 13, 5, 0xA9E3_E905, 0xFE2E_AB8F,
         0xB7F2_68CF, 0x786A_CB8F, 0xFE16_23B1, 0x0938_8EFF, 0x790A_77FB);
    Next(29, 2, 9, 0xFCEF_A3F8, 0x786A_EBBF,
         0x0938_8EFF, 0x790A_77FB, 0x786A_CB8F, 0xFE16_23B1, 0x9F47_E4F8);
    Next(30, 7, 14, 0x676F_02D9, 0x1942_F4F8,
         0xFE16_23B1, 0x9F47_E4F8, 0x790A_77FB, 0x786A_CB8F, 0xA628_84AA);
    Next(31, 12, 20, 0x8D2A_4C8A, 0xA64D_84AA,
         0x786A_CB8F, 0xA628_84AA, 0x9F47_E4F8, 0x790A_77FB, 0x7263_42D3);
  }

  lemma AbcThird0()
    requires Reached(32, 0x790A_77FB, 0x7263_42D3, 0xA628_84AA, 0x9F47_E4F8)
    ensures Reached(36, 0xB370_7EBF, 0x3B08_75C7, 0x8D21_2FF5, 0x6012_7B2E)
  {
    hide Reached, WordIndex, ShiftOf, SineOf;
    ThirdTable0();
    Next(32, 5, 4, 0xFFFA_3942, 0x4B0C_2281,
         0x790A_77FB, 0x7263_42D3, 0xA628_84AA, 0x9F47_E4F8, 0xB370_7EBF);
    Next(33, 8, 11, 0x8771_F681, 0x673B_B8C6,
         0x9F47_E4F8, 0xB370_7EBF, 0x7263_42D3, 0xA628_84AA, 0x6012_7B2E);
    Next(34, 11, 16, 0x6D9D_6122, 0xA101_4742,
         0xA628_84AA, 0x6012_7B2E, 0xB370_7EBF, 0x7263_42D3, 0x8D21_2FF5);
    Next(35, 14, 23, 0xFDE5_380C, 0x5E43_2A64,
         0x7263_42D3, 0x8D21_2FF5, 0x6012_7B2E, 0xB370_7EBF, 0x3B08_75C7);
  }

  lemma AbcThird1()
    requires Reached(36, 0xB370_7EBF, 0x3B08_75C7, 0x8D21_2FF5, 0x6012_7B2E)
    ensures Reached(40, 0x21B1_17B9, 0x5A2F_5EA5, 0x3575_227E, 0x6E74_29D5)
  {
    hide Reached, WordIndex, ShiftOf, SineOf;
    ThirdTable1();
    Next(36, 1, 4, 0xA4BE_EA44, 0xD63B_211C,
         0xB370_7EBF, 0x3B08_75C7, 0x8D21_2FF5, 0x6012_7B2E, 0x21B1_17B9);
    Next(37, 4, 11, 0x4BDE_CFA9, 0x9798_4D8B,
         0x6012_7B2E, 0x21B1_17B9, 0x3B08_75C7, 0x8D21_2FF5, 0x6E74_29D5);
    Next(38, 7, 16, 0xF6BB_4B60, 0x74CD_4BAB,
         0x8D21_2FF5, 0x6E74_29D5, 0x21B1_17B9, 0x3B08_75C7, 0x3575_227E);
    Next(39, 10, 23, 0xBEBF_BC70, 0x7AB0_1C12,
         0x3B08_75C7, 0x3575_227E, 0x6E74_29D5, 0x21B1_17B9, 0x5A2F_5EA5);
  }

  lemma AbcThird2()
    requires Reached(40, 0x21B1_17B9, 0x5A2F_5EA5, 0x3575_227E, 0x6E74_29D5)
    ensures Reached(44, 0x11DE_1779, 0x4C61_24F4, 0x31C4_65CA, 0xFADC_AA38)
  {
    hide Reached, WordIndex, ShiftOf, SineOf;
    ThirdTable2();
    Next(40, 13, 4, 0x289B_7EC6, 0x012E_550E,
         0x21B1_17B9, 0x5A2F_5EA5, 0x3575_227E, 0x6E74_29D5, 0x11DE_1779);
    Next(41, 0, 11, 0xEAA1_27FA, 0x7E84_6BA2,
         0x6E74_29D5, 0x11DE_1779, 0x5A2F_5EA5, 0x3575_227E, 0xFADC_AA38);
    Next(42, 3, 16, 0xD4EF_3085, 0xB12D_E3E4,
         0x3575_227E, 0xFADC_AA38, 0x11DE_1779, 0x5A2F_5EA5, 0x31C4_65CA);
    Next(43, 6, 23, 0x0488_1D05, 0xDAC6_D88B,
         0x5A2F_5EA5, 0x31C4_65CA, 0xFADC_AA38, 0x11DE_1779, 0x4C61_24F4);
  }

  lemma AbcThird3()
    requires Reached(44, 0x11DE_1779, 0x4C61_24F4, 0x31C4_65CA, 0xFADC_AA38)
    ensures Reached(48, 0x7F2E_507B, 0x7BEB_9700, 0x8FAE_6399, 0x99D9_679D)
  {
    hide Reached, WordIndex, ShiftOf, SineOf;
    ThirdTable3();
    Next(44, 9, 4, 0xD9D4_D039, 0x8779_EB06,
         0x11DE_1779, 0x4C61_24F4, 0x31C4_65CA, 0xFADC_AA38, 0x7F2E_507B);
    Next(45, 12, 11, 0xE6DB_99E5, 0x028B_1145,
         0xFADC_AA38, 0x7F2E_507B, 0x4C61_24F4, 0x31C4_65CA, 0x99D9_679D);
    Next(46, 15, 16, 0x1FA2_7CF8, 0xAA96_1312,
         0x31C4_65CA, 0x99D9_679D, 0x7F2E_507B, 0x4C61_24F4, 0x8FAE_6399);
    Next(47, 2, 23, 0xC4AC_5665, 0x6959_547F,
         0x4C61_24F4, 0x8FAE_6399, 0x99D9_679D, 0x7F2E_507B, 0x7BEB_9700);
  }

  lemma AbcFourth0()
    requires Reached(48, 0x7F2E_507B, 0x7BEB_9700, 0x8FAE_6399, 0x99D9_679D)
    ensures Reached(52, 0x7B20_1DF8, 0x8BF0_25C4, 0xB298_CEFD, 0xF4E8_E96E)
  {
    hide Reached, WordIndex, ShiftOf, SineOf;
    FourthTable0();
    Next(48, 0, 6, 0xF429_2244, 0xF041_FCFB,
         0x7F2E_507B, 0x7BEB_9700, 0x8FAE_6399, 0x99D9_679D, 0x7B20_1DF8);
    Next(49, 7, 10, 0x432A_FF97, 0x009A_0AFE,
         0x99D9_679D, 0x7B20_1DF8, 0x7BEB_9700, 0x8FAE_6399, 0xF4E8_E96E);
    Next(50, 14, 15, 0xAB94_23A7, 0x8FDC_F407,
         0x8FAE_6399, 0xF4E8_E96E, 0x7B20_1DF8, 0x7BEB_9700, 0xB298_CEFD);
    Next(51, 5, 21, 0xFC93_A039, 0x4237_0791,
         0x7BEB_9700, 0xB298_CEFD, 0xF4E8_E96E, 0x7B20_1DF8, 0x8BF0_25C4);
  }

  lemma AbcFourth1()
    requires Reached(52, 0x7B20_1DF8, 0x8BF0_25C4, 0xB298_CEFD, 0xF4E8_E96E)
    ensures Reached(56, 0x06CC_5E8A, 0x3BFA_2C27, 0x7D63_2DD0, 0x5B0D_97AA)
  {
    hide Reached, WordIndex, ShiftOf, SineOf;
    FourthTable1();
    Next(52, 12, 6, 0x655B_59C3, 0x396F_F928,
         0x7B20_1DF8, 0x8BF0_25C4, 0xB298_CEFD, 0xF4E8_E96E, 0x06CC_5E8A);
    Next(53, 3, 10, 0x8F0C_CC92, 0xC41F_5A4E,
         0xF4E8_E96E, 0x06CC_5E8A, 0x8BF0_25C4, 0xB298_CEFD, 0x5B0D_97AA);
    Next(54, 10, 15, 0xFFEF_F47D, 0x79C3_8131,
         0xB298_CEFD, 0x5B0D_97AA, 0x06CC_5E8A, 0x8BF0_25C4, 0x7D63_2DD0);
    Next(55, 1, 21, 0x8584_5DD1, 0xA67E_3A5F,
         0x8BF0_25C4, 0x7D63_2DD0, 0x5B0D_97AA, 0x06CC_5E8A, 0x3BFA_2C27);
  }

  lemma AbcFourth2()
    requires Reached(56, 0x06CC_5E8A, 0x3BFA_2C27, 0x7D63_2DD0, 0x5B0D_97AA)
    ensures Reached(60, 0x7F81_CC35, 0x7327_D604, 0x4F9D_BE3F, 0x0944_54AB)
  {
    hide Reached, WordIndex, ShiftOf, SineOf;
    FourthTable2();
    Next(56, 8, 6, 0x6FA8_7E4F, 0xC299_41A7,
         0x06CC_5E8A, 0x3BFA_2C27, 0x7D63_2DD0, 0x5B0D_97AA, 0x7F81_CC35);
    Next(57, 15, 10, 0xFE2C_E6E0, 0xC467_F218,
         0x5B0D_97AA, 0x7F81_CC35, 0x3BFA_2C27, 0x7D63_2DD0, 0x0944_54AB);
    Next(58, 6, 15, 0xA301_4314, 0xB2C4_1BCE,
         0x7D63_2DD0, 0x0944_54AB, 0x7F81_CC35, 0x3BFA_2C27, 0x4F9D_BE3F);
    Next(59, 13, 21, 0x4E08_11A1, 0xC6BB_EB54,
         0x3BFA_2C27, 0x4F9D_BE3F, 0x0944_54AB, 0x7F81_CC35, 0x7327_D604);
  }

  lemma AbcFourth3()
    requires Reached(60, 0x7F81_CC35, 0x7327_D604, 0x4F9D_BE3F, 0x0944_54AB)
    ensures Reached(64, 0x310A_DE8F, 0xC082_26B3, 0xE484_B9D8, 0x624D_8CB2)
  {
    hide Reached, WordIndex, ShiftOf, SineOf;
    FourthTable3();
    Next(60, 4, 6, 0xF753_7E82, 0xB822_416B,
         0x7F81_CC35, 0x7327_D604, 0x4F9D_BE3F, 0x0944_54AB, 0x310A_DE8F);
    Next(61, 11, 10, 0xBD3A_F235, 0xC24D_09CB,
         0x0944_54AB, 0x310A_DE8F, 0x7327_D604, 0x4F9D_BE3F, 0x624D_8CB2);
    Next(62, 2, 15, 0x2AD7_D2BB, 0xDFD7_7374,
         0x4F9D_BE3F, 0x624D_8CB2, 0x310A_DE8F, 0x7327_D604, 0xE484_B9D8);
    Next(63, 9, 21, 0xEB86_D391, 0x8CB8_354A,
         0x7327_D604, 0xE484_B9D8, 0x624D_8CB2, 0x310A_DE8F, 0xC082_26B3);
  }

  lemma AllOperations()
    ensures Operations(64, ABC, Initial()) == State(0x310A_DE8F, 0xC082_26B3, 0xE484_B9D8, 0x624D_8CB2)
  {
    assert Reached(0, 0x6745_2301, 0xEFCD_AB89, 0x98BA_DCFE, 0x1032_5476);
    assert Reached(64, 0x310A_DE8F, 0xC082_26B3, 0xE484_B9D8, 0x624D_8CB2) by {
      hide Reached;
      AbcFirst0();
      AbcFirst1();
      AbcFirst2();
      AbcFirst3();
      AbcSecond0();
      AbcSecond1();
      AbcSecond2();
      AbcSecond3();
      AbcThird0();
      AbcThird1();
      AbcThird2();
      AbcThird3();
      AbcFourth0();
      AbcFourth1();
      AbcFourth2();
      AbcFourth3();
    }
  }

  const BLOCK: Bytes := [0x61, 0x62, 0x63] + [0x80] + Zeros(52) + [0x18, 0, 0, 0, 0, 0, 0, 0]

  lemma CountByte()
    ensures ByteDigits.ByteOfNat(24) == 0x18 && ByteDigits.ByteOfNat(0) == 0
  {
    hide ByteDigits.FromBits;
    SmallBits();
  }

  lemma SmallBits()
    ensures ByteDigits.FromBits(false, false, false, true, true, false, false, false) == 0x18
    ensures ByteDigits.FromBits(false, false, false, false, false, false, false, false) == 0
  {}

  lemma PackedByte(b: Byte)
    ensures Pack(b, 0, 0, 0) == b as Word
  {}

  lemma CountWord()
    ensures LengthWord(24) == Pack(ByteDigits.ByteOfNat(24), ByteDigits.ByteOfNat(0), ByteDigits.ByteOfNat(0),
                                   ByteDigits.ByteOfNat(0))
    ensures LengthWord(0) == Pack(ByteDigits.ByteOfNat(0), ByteDigits.ByteOfNat(0), ByteDigits.ByteOfNat(0),
                                  ByteDigits.ByteOfNat(0))
  {
    hide ByteDigits.ByteOfNat, Pack;
  }

  lemma CountBytes()
    ensures CounterBytes(24, 0) == [0x18, 0, 0, 0, 0, 0, 0, 0]
  {
    CountWord();
    CountByte();
    PackedByte(0x18);
    PackedByte(0);
    assert LengthWord(24) == 0x18 && LengthWord(0) == 0 by { hide LengthWord, Pack, ByteDigits.ByteOfNat; }
    hide LengthWord, Pack, ByteDigits.ByteOfNat;
    var v: seq<Word> := [0x18, 0];
    assert ByteOf(0x18, 0) == 0x18 && ByteOf(0x18, 1) == 0 && ByteOf(0x18, 2) == 0 && ByteOf(0x18, 3) == 0;
    assert ByteOf(0, 0) == 0 && ByteOf(0, 1) == 0 && ByteOf(0, 2) == 0 && ByteOf(0, 3) == 0;
    hide ByteOf;
    assert FromWords(v, 8)[0] == ByteOf(v[0], 0) && FromWords(v, 8)[1] == ByteOf(v[0], 1);
    assert FromWords(v, 8)[2] == ByteOf(v[0], 2) && FromWords(v, 8)[3] == ByteOf(v[0], 3);
    assert FromWords(v, 8)[4] == ByteOf(v[1], 0) && FromWords(v, 8)[5] == ByteOf(v[1], 1);
    assert FromWords(v, 8)[6] == ByteOf(v[1], 2) && FromWords(v, 8)[7] == ByteOf(v[1], 3);
  }

  lemma AbcPadded()
    ensures Padded([0x61, 0x62, 0x63]) == BLOCK
  {
    assert LowOf(3) == 24 && HighOf(3) == 0 && PadZeros(3) == 52;
    hide LowOf, HighOf, PadZeros, CounterBytes, Zeros;
    CountBytes();
  }

  lemma AbcWords()
    ensures Gather(BLOCK) == ABC
  {
    assert |BLOCK| == 64;
    AbcFirstWord();
    AbcLastWords();
    forall j | 1 <= j < 14 ensures WordAt(BLOCK, j) == 0 {
      NoughtWord(BLOCK, j);
    }
    hide WordAt, BLOCK;
    assert Gather(BLOCK) == seq(16, j requires 0 <= j => WordAt(BLOCK, j));
  }

  lemma AbcFirstWord()
    ensures WordAt(BLOCK, 0) == 0x8063_6261
  {
    assert BLOCK[0] == 0x61 && BLOCK[1] == 0x62 && BLOCK[2] == 0x63 && BLOCK[3] == 0x80;
    assert Pack(0x61, 0x62, 0x63, 0x80) == 0x8063_6261;
    hide Pack;
  }

  lemma AbcLastWords()
    ensures WordAt(BLOCK, 14) == 0x18 && WordAt(BLOCK, 15) == 0
  {
    assert BLOCK[56] == 0x18 && BLOCK[57] == 0 && BLOCK[58] == 0 && BLOCK[59] == 0;
    assert BLOCK[60] == 0 && BLOCK[61] == 0 && BLOCK[62] == 0 && BLOCK[63] == 0;
    assert Pack(0x18, 0, 0, 0) == 0x18 && Pack(0, 0, 0, 0) == 0;
    hide Pack;
  }

  lemma NoughtWord(data: Bytes, j: nat)
    requires ByteAt(data, 4 * j) == 0 && ByteAt(data, 4 * j + 1) == 0
    requires ByteAt(data, 4 * j + 2) == 0 && ByteAt(data, 4 * j + 3) == 0
    ensures WordAt(data, j) == 0
  {
    hide ByteAt;
  }

  /** The last sums, and their bytes. */
  lemma AbcOutput()
    ensures OutputOf(Added(Initial(), State(0x310A_DE8F, 0xC082_26B3, 0xE484_B9D8, 0x624D_8CB2))) ==
              [0x90, 0x01, 0x50, 0x98, 0x3C, 0xD2, 0x4F, 0xB0, 0xD6, 0x96, 0x3F, 0x7D, 0x28, 0xE1, 0x7F, 0x72]
  {
    assert Added(Initial(), State(0x310A_DE8F, 0xC082_26B3, 0xE484_B9D8, 0x624D_8CB2)) ==
        State(0x9850_0190, 0xB04F_D23C, 0x7D3F_96D6, 0x727F_E128);
    hide Added, Initial;
  }

  /** The digest of "abc". */
  lemma KnownDigest()
    ensures Digest(Transform, [0x61, 0x62, 0x63]) ==
              [0x90, 0x01, 0x50, 0x98, 0x3C, 0xD2, 0x4F, 0xB0, 0xD6, 0x96, 0x3F, 0x7D, 0x28, 0xE1, 0x7F, 0x72]
  {
    hide Padded, OutputOf, Initial, Operations, Gather, Added, ABC;
    AllOperations();
    AbcPadded();
    AbcWords();
    AbcOutput();
    assert |BLOCK| == 64;
    hide BLOCK;
    OneBlock(Transform, Initial(), BLOCK);
  }

  lemma OneBlock(t: Compress, st: State, block: Bytes)
    requires |block| == 64
    ensures Fold(t, st, block) == t(st, block)
  {
    assert block[..64] == block && block[64..] == [];
  }
}
