/** A published test vector of the cipher, computed round by round: two zero words under the key
    01 02 04 08 10 20 40 80 FF FE FC F8 F0 E0 C0 80 become the bytes D1 E7 8B E2 C7 46 72 8A. */
module XxteaVector {
  import opened Xxtea
  import opened WordCodec

  const KEY: seq<Word> := [0x0804_0201, 0x8040_2010, 0xF8FC_FEFF, 0x80C0_E0F0]

  /** After `r` rounds the two words are `a` and `b`, and the running sum is `sum`. */
  ghost predicate Reached(r: nat, a: Word, b: Word, sum: Word) {
    Rounds([0, 0], KEY, r) == [a, b] && TimesDelta(r) == sum
  }

  lemma NextRound(r: nat, a: Word, b: Word, sum: Word, a': Word, b': Word, sum': Word)
    requires Reached(r, a, b, sum) && sum' == Plus(sum, DELTA)
    requires a' == Plus(a, Mix(b, b, sum', KEY, 0)) && b' == Plus(b, Mix(a', a', sum', KEY, 1))
    ensures Reached(r + 1, a', b', sum')
  {
    assert |KEY| == 4;
    hide Mix, Plus, KEY;
    assert Sweep([a, b], KEY, sum', 0) == [a, b];
    assert Sweep([a, b], KEY, sum', 1) == [a', b];
    assert Sweep([a, b], KEY, sum', 2) == [a', b'];
  }

  lemma FirstRounds()
    ensures Reached(8, 0xE740_F98E, 0xE568_7213, 0xF1BB_CDC8)
  {
    assert Reached(0, 0, 0, 0);
    hide Reached;
    NextRound(0, 0x0000_0000, 0x0000_0000, 0x0000_0000, 0x9734_78B8, 0x9AFE_DCF5, 0x9E37_79B9);
    NextRound(1, 0x9734_78B8, 0x9AFE_DCF5, 0x9E37_79B9, 0xA98A_0D32, 0x2A59_B93A, 0x3C6E_F372);
    NextRound(2, 0xA98A_0D32, 0x2A59_B93A, 0x3C6E_F372, 0x342B_E3B0, 0xE08C_41C2, 0xDAA6_6D2B);
    NextRound(3, 0x342B_E3B0, 0xE08C_41C2, 0xDAA6_6D2B, 0x9740_D596, 0x2F08_E191, 0x78DD_E6E4);
    NextRound(4, 0x9740_D596, 0x2F08_E191, 0x78DD_E6E4, 0xEC70_199D, 0xCDCA_C38A, 0x1715_609D);
    NextRound(5, 0xEC70_199D, 0xCDCA_C38A, 0x1715_609D, 0x1CBA_5E10, 0x5256_78AF, 0xB54C_DA56);
    NextRound(6, 0x1CBA_5E10, 0x5256_78AF, 0xB54C_DA56, 0xCB4A_B1B1, 0x680E_4E12, 0x5384_540F);
    NextRound(7, 0xCB4A_B1B1, 0x680E_4E12, 0x5384_540F, 0xE740_F98E, 0xE568_7213, 0xF1BB_CDC8);
  }

  lemma SecondRounds()
    requires Reached(8, 0xE740_F98E, 0xE568_7213, 0xF1BB_CDC8)
    ensures Reached(16, 0xA12E_0471, 0x57AA_C000, 0xE377_9B90)
  {
    hide Reached;
    NextRound(8, 0xE740_F98E, 0xE568_7213, 0xF1BB_CDC8, 0x6BF4_1878, 0x76DD_CFE6, 0x8FF3_4781);
    NextRound(9, 0x6BF4_1878, 0x76DD_CFE6, 0x8FF3_4781, 0x48C5_3EEE, 0xFF49_9664, 0x2E2A_C13A);
    NextRound(10, 0x48C5_3EEE, 0xFF49_9664, 0x2E2A_C13A, 0x14FA_6841, 0xCD24_36C1, 0xCC62_3AF3);
    NextRound(11, 0x14FA_6841, 0xCD24_36C1, 0xCC62_3AF3, 0x203E_2625, 0x77D9_B21B, 0x6A99_B4AC);
    NextRound(12, 0x203E_2625, 0x77D9_B21B, 0x6A99_B4AC, 0x46D8_598B, 0x5A2D_9D34, 0x08D1_2E65);
    NextRound(13, 0x46D8_598B, 0x5A2D_9D34, 0x08D1_2E65, 0x12EA_257C, 0x41F5_4DE3, 0xA708_A81E);
    NextRound(14, 0x12EA_257C, 0x41F5_4DE3, 0xA708_A81E, 0xEE19_F4C4, 0x6BF9_9239, 0x4540_21D7);
    NextRound(15, 0xEE19_F4C4, 0x6BF9_9239, 0x4540_21D7, 0xA12E_0471, 0x57AA_C000, 0xE377_9B90);
  }

  lemma ThirdRounds()
    requires Reached(16, 0xA12E_0471, 0x57AA_C000, 0xE377_9B90)
    ensures Reached(24, 0xCEE2_B8A0, 0x16B4_D14B, 0xD533_6958)
  {
    hide Reached;
    NextRound(16, 0xA12E_0471, 0x57AA_C000, 0xE377_9B90, 0xEA61_BEB9, 0x1408_9961, 0x81AF_1549);
    NextRound(17, 0xEA61_BEB9, 0x1408_9961, 0x81AF_1549, 0x9FD1_D601, 0x0971_17F1, 0x1FE6_8F02);
    NextRound(18, 0x9FD1_D601, 0x0971_17F1, 0x1FE6_8F02, 0xB304_1332, 0xB8E6_2ACD, 0xBE1E_08BB);
    NextRound(19, 0xB304_1332, 0xB8E6_2ACD, 0xBE1E_08BB, 0x158B_C3AF, 0x90E4_BB7C, 0x5C55_8274);
    NextRound(20, 0x158B_C3AF, 0x90E4_BB7C, 0x5C55_8274, 0x2F6C_0DB6, 0x936E_10EB, 0xFA8C_FC2D);
    NextRound(21, 0x2F6C_0DB6, 0x936E_10EB, 0xFA8C_FC2D, 0xA2E3_7786, 0xBF79_BCBE, 0x98C4_75E6);
    NextRound(22, 0xA2E3_7786, 0xBF79_BCBE, 0x98C4_75E6, 0xB48D_0C81, 0xBAB2_D33A, 0x36FB_EF9F);
    NextRound(23, 0xB48D_0C81, 0xBAB2_D33A, 0x36FB_EF9F, 0xCEE2_B8A0, 0x16B4_D14B, 0xD533_6958);
  }

  lemma LastRounds()
    requires Reached(24, 0xCEE2_B8A0, 0x16B4_D14B, 0xD533_6958)
    ensures Reached(32, 0xE28B_E7D1, 0x8A72_46C7, 0xC6EF_3720)
  {
    hide Reached;
    NextRound(24, 0xCEE2_B8A0, 0x16B4_D14B, 0xD533_6958, 0x0F70_303B, 0x5697_75BC, 0x736A_E311);
    NextRound(25, 0x0F70_303B, 0x5697_75BC, 0x736A_E311, 0x589F_C6A8, 0x18CF_2C0C, 0x11A2_5CCA);
    NextRound(26, 0x589F_C6A8, 0x18CF_2C0C, 0x11A2_5CCA, 0x8CA7_8CB5, 0x3B50_7BB8, 0xAFD9_D683);
    NextRound(27, 0x8CA7_8CB5, 0x3B50_7BB8, 0xAFD9_D683, 0x3C80_71AD, 0x2FC1_E6B5, 0x4E11_503C);
    NextRound(28, 0x3C80_71AD, 0x2FC1_E6B5, 0x4E11_503C, 0x07D5_8A2F, 0x9626_3B5F, 0xEC48_C9F5);
    NextRound(29, 0x07D5_8A2F, 0x9626_3B5F, 0xEC48_C9F5, 0x0731_A610, 0xB3AA_90FE, 0x8A80_43AE);
    NextRound(30, 0x0731_A610, 0xB3AA_90FE, 0x8A80_43AE, 0x3E46_5209, 0x4557_EBF1, 0x28B7_BD67);
    NextRound(31, 0x3E46_5209, 0x4557_EBF1, 0x28B7_BD67, 0xE28B_E7D1, 0x8A72_46C7, 0xC6EF_3720);
  }

  lemma LastWords()
    ensures Encrypted([0, 0], 2, KEY) == [0xE28B_E7D1, 0x8A72_46C7]
  {
    assert |KEY| == 4;
    hide Rounds, KEY, TimesDelta;
    var s: seq<Word> := [0, 0];
    assert s[..2] == s && s[2..] == [] && RoundCount(2) == 32;
    assert Rounds(s, KEY, 32) == [0xE28B_E7D1, 0x8A72_46C7] by {
      FirstRounds();
      SecondRounds();
      ThirdRounds();
      LastRounds();
    }
  }

  lemma KnownAnswer()
    ensures KEY == Gather([0x01, 0x02, 0x04, 0x08, 0x10, 0x20, 0x40, 0x80,
                           0xFF, 0xFE, 0xFC, 0xF8, 0xF0, 0xE0, 0xC0, 0x80])
    ensures Spread(Encrypted(Gather([0, 0, 0, 0, 0, 0, 0, 0]), 2, KEY)) ==
              [0xD1, 0xE7, 0x8B, 0xE2, 0xC7, 0x46, 0x72, 0x8A]
  {
    hide Encrypted;
    LastWords();
    assert Gather([0, 0, 0, 0, 0, 0, 0, 0]) == [0, 0];
  }
}
