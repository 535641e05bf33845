/**
 * SHA-1 of the three bytes "abc", the one-block example for FIPS 180-4: the message schedule and the working
 * variables after every round, each checked against the definition, and the digest.
 */
module Sha1Example {
  import opened ShaBytes
  import opened ShaSpec
  import opened ShaExample
  import opened Sha1

  // ----- the message schedule -----

  const W0: bv32 := 0x61626380  const W1: bv32 := 0x00000000  const W2: bv32 := 0x00000000
  const W3: bv32 := 0x00000000  const W4: bv32 := 0x00000000  const W5: bv32 := 0x00000000
  const W6: bv32 := 0x00000000  const W7: bv32 := 0x00000000  const W8: bv32 := 0x00000000
  const W9: bv32 := 0x00000000  const W10: bv32 := 0x00000000  const W11: bv32 := 0x00000000
  const W12: bv32 := 0x00000000  const W13: bv32 := 0x00000000  const W14: bv32 := 0x00000000
  const W15: bv32 := 0x00000018  const W16: bv32 := 0xc2c4c700  const W17: bv32 := 0x00000000
  const W18: bv32 := 0x00000030  const W19: bv32 := 0x85898e01  const W20: bv32 := 0x00000000
  const W21: bv32 := 0x00000060  const W22: bv32 := 0x0b131c03  const W23: bv32 := 0x00000030
  const W24: bv32 := 0x85898ec1  const W25: bv32 := 0x16263806  const W26: bv32 := 0x00000000
  const W27: bv32 := 0x00000180  const W28: bv32 := 0x2c4c700c  const W29: bv32 := 0x000000f0
  const W30: bv32 := 0x93afb507  const W31: bv32 := 0x5898e048  const W32: bv32 := 0x8e9a9202
  const W33: bv32 := 0x00000600  const W34: bv32 := 0xb131c0f0  const W35: bv32 := 0x16263bc6
  const W36: bv32 := 0x4ebed41e  const W37: bv32 := 0x626380a1  const W38: bv32 := 0x16263806
  const W39: bv32 := 0x000018c0  const W40: bv32 := 0xd2e138c4  const W41: bv32 := 0x00000f00
  const W42: bv32 := 0x3afb5079  const W43: bv32 := 0x898e04e5  const W44: bv32 := 0xe2ba3c2b
  const W45: bv32 := 0x000060c0  const W46: bv32 := 0x053a37cd  const W47: bv32 := 0x74458547
  const W48: bv32 := 0xda9415ed  const W49: bv32 := 0x26380a16  const W50: bv32 := 0x626383a1
  const W51: bv32 := 0x4ebf54de  const W52: bv32 := 0x3835b44b  const W53: bv32 := 0x0000f600
  const W54: bv32 := 0x1e84c7a3  const W55: bv32 := 0x98e04d98  const W56: bv32 := 0x651d16a0
  const W57: bv32 := 0x62658ca1  const W58: bv32 := 0x458544d6  const W59: bv32 := 0x44584cb7
  const W60: bv32 := 0x7ba06619  const W61: bv32 := 0x6380aea2  const W62: bv32 := 0x0ae55269
  const W63: bv32 := 0x627b49a1  const W64: bv32 := 0x7cd45c9d  const W65: bv32 := 0x000f0000
  const W66: bv32 := 0xfb50753a  const W67: bv32 := 0xec6765e8  const W68: bv32 := 0xba3c2be2
  const W69: bv32 := 0x0060c000  const W70: bv32 := 0x3a37cd05  const W71: bv32 := 0x458546f4
  const W72: bv32 := 0xb8599dd6  const W73: bv32 := 0x380a1a26  const W74: bv32 := 0x01e02203
  const W75: bv32 := 0xe7cc3456  const W76: bv32 := 0xe6e60b69  const W77: bv32 := 0x00f60a00
  const W78: bv32 := 0x5795ef4f  const W79: bv32 := 0x822e0879

  /** The padded message as one block. */
  function M(): (m: seq<bv32>)
    ensures |m| == 16
  {
    [W0, W1, W2, W3, W4, W5, W6, W7, W8, W9, W10, W11, W12, W13, W14, W15]
  }

  /** The schedule as a table. */
  const ROWS: seq<seq<bv32>> := [
    [W0, W1, W2, W3, W4, W5, W6, W7],
    [W8, W9, W10, W11, W12, W13, W14, W15],
    [W16, W17, W18, W19, W20, W21, W22, W23],
    [W24, W25, W26, W27, W28, W29, W30, W31],
    [W32, W33, W34, W35, W36, W37, W38, W39],
    [W40, W41, W42, W43, W44, W45, W46, W47],
    [W48, W49, W50, W51, W52, W53, W54, W55],
    [W56, W57, W58, W59, W60, W61, W62, W63],
    [W64, W65, W66, W67, W68, W69, W70, W71],
    [W72, W73, W74, W75, W76, W77, W78, W79]]

  function Word(t: nat): bv32
    requires t < ROUNDS
  {
    ROWS[t / 8][t % 8]
  }

  /** A word of the schedule from four before it. */
  function Next(w3: bv32, w8: bv32, w14: bv32, w16: bv32): bv32 {
    Rotl(Xor4(w3, w8, w14, w16), 1)
  }

  predicate Follows(t: nat)
    requires 16 <= t < ROUNDS
  {
    Word(t) == Next(Word(t - 3), Word(t - 8), Word(t - 14), Word(t - 16))
  }

  /** The rotations with shifts by literals. */
  lemma Rotated(x: bv32)
    ensures Rotl(x, 1) == (x << 1) | (x >> 31) && Rotl(x, 5) == (x << 5) | (x >> 27)
    ensures Rotl(x, 30) == (x << 30) | (x >> 2)
  {
  }

  lemma Rotations()
    ensures forall x: bv32 :: Rotl(x, 1) == (x << 1) | (x >> 31) && Rotl(x, 5) == (x << 5) | (x >> 27)
    ensures forall x: bv32 :: Rotl(x, 30) == (x << 30) | (x >> 2)
  {
    hide Rotl;
    forall x: bv32
      ensures Rotl(x, 1) == (x << 1) | (x >> 31) && Rotl(x, 5) == (x << 5) | (x >> 27)
      ensures Rotl(x, 30) == (x << 30) | (x >> 2)
    {
      Rotated(x);
    }
  }

  lemma Table0()
    ensures Word(0) == W0 && Word(1) == W1 && Word(2) == W2 && Word(3) == W3 && Word(4) == W4 && Word(5) == W5
    ensures Word(6) == W6 && Word(7) == W7 && Word(8) == W8 && Word(9) == W9 && Word(10) == W10 && Word(11) == W11
    ensures Word(12) == W12 && Word(13) == W13 && Word(14) == W14 && Word(15) == W15
  {
  }

  lemma Table1()
    ensures Word(16) == W16 && Word(17) == W17 && Word(18) == W18 && Word(19) == W19 && Word(20) == W20
    ensures Word(21) == W21 && Word(22) == W22 && Word(23) == W23 && Word(24) == W24 && Word(25) == W25
    ensures Word(26) == W26 && Word(27) == W27 && Word(28) == W28 && Word(29) == W29 && Word(30) == W30
    ensures Word(31) == W31
  {
  }

  lemma Table2()
    ensures Word(32) == W32 && Word(33) == W33 && Word(34) == W34 && Word(35) == W35 && Word(36) == W36
    ensures Word(37) == W37 && Word(38) == W38 && Word(39) == W39 && Word(40) == W40 && Word(41) == W41
    ensures Word(42) == W42 && Word(43) == W43 && Word(44) == W44 && Word(45) == W45 && Word(46) == W46
    ensures Word(47) == W47
  {
  }

  lemma Table3()
    ensures Word(48) == W48 && Word(49) == W49 && Word(50) == W50 && Word(51) == W51 && Word(52) == W52
    ensures Word(53) == W53 && Word(54) == W54 && Word(55) == W55 && Word(56) == W56 && Word(57) == W57
    ensures Word(58) == W58 && Word(59) == W59 && Word(60) == W60 && Word(61) == W61 && Word(62) == W62
    ensures Word(63) == W63
  {
  }

  lemma Table4()
    ensures Word(64) == W64 && Word(65) == W65 && Word(66) == W66 && Word(67) == W67 && Word(68) == W68
    ensures Word(69) == W69 && Word(70) == W70 && Word(71) == W71 && Word(72) == W72 && Word(73) == W73
    ensures Word(74) == W74 && Word(75) == W75 && Word(76) == W76 && Word(77) == W77 && Word(78) == W78
    ensures Word(79) == W79
  {
  }

  lemma Schedule1()
    ensures W16 == Next(W13, W8, W2, W0) && W17 == Next(W14, W9, W3, W1) && W18 == Next(W15, W10, W4, W2)
    ensures W19 == Next(W16, W11, W5, W3) && W20 == Next(W17, W12, W6, W4) && W21 == Next(W18, W13, W7, W5)
    ensures W22 == Next(W19, W14, W8, W6) && W23 == Next(W20, W15, W9, W7) && W24 == Next(W21, W16, W10, W8)
    ensures W25 == Next(W22, W17, W11, W9) && W26 == Next(W23, W18, W12, W10) && W27 == Next(W24, W19, W13, W11)
    ensures W28 == Next(W25, W20, W14, W12) && W29 == Next(W26, W21, W15, W13) && W30 == Next(W27, W22, W16, W14)
    ensures W31 == Next(W28, W23, W17, W15)
  {
    Rotations();
    hide Rotl;
  }

  lemma Follow1()
    ensures Follows(16) && Follows(17) && Follows(18) && Follows(19) && Follows(20) && Follows(21) && Follows(22)
    ensures Follows(23) && Follows(24) && Follows(25) && Follows(26) && Follows(27) && Follows(28) && Follows(29)
    ensures Follows(30) && Follows(31)
  {
    Table0(); Table1(); Schedule1();
    hide Word, Next;
  }

  lemma Schedule2()
    ensures W32 == Next(W29, W24, W18, W16) && W33 == Next(W30, W25, W19, W17) && W34 == Next(W31, W26, W20, W18)
    ensures W35 == Next(W32, W27, W21, W19) && W36 == Next(W33, W28, W22, W20) && W37 == Next(W34, W29, W23, W21)
    ensures W38 == Next(W35, W30, W24, W22) && W39 == Next(W36, W31, W25, W23) && W40 == Next(W37, W32, W26, W24)
    ensures W41 == Next(W38, W33, W27, W25) && W42 == Next(W39, W34, W28, W26) && W43 == Next(W40, W35, W29, W27)
    ensures W44 == Next(W41, W36, W30, W28) && W45 == Next(W42, W37, W31, W29) && W46 == Next(W43, W38, W32, W30)
    ensures W47 == Next(W44, W39, W33, W31)
  {
    Rotations();
    hide Rotl;
  }

  lemma Follow2()
    ensures Follows(32) && Follows(33) && Follows(34) && Follows(35) && Follows(36) && Follows(37) && Follows(38)
    ensures Follows(39) && Follows(40) && Follows(41) && Follows(42) && Follows(43) && Follows(44) && Follows(45)
    ensures Follows(46) && Follows(47)
  {
    Table1(); Table2(); Schedule2();
    hide Word, Next;
  }

  lemma Schedule3()
    ensures W48 == Next(W45, W40, W34, W32) && W49 == Next(W46, W41, W35, W33) && W50 == Next(W47, W42, W36, W34)
    ensures W51 == Next(W48, W43, W37, W35) && W52 == Next(W49, W44, W38, W36) && W53 == Next(W50, W45, W39, W37)
    ensures W54 == Next(W51, W46, W40, W38) && W55 == Next(W52, W47, W41, W39) && W56 == Next(W53, W48, W42, W40)
    ensures W57 == Next(W54, W49, W43, W41) && W58 == Next(W55, W50, W44, W42) && W59 == Next(W56, W51, W45, W43)
    ensures W60 == Next(W57, W52, W46, W44) && W61 == Next(W58, W53, W47, W45) && W62 == Next(W59, W54, W48, W46)
    ensures W63 == Next(W60, W55, W49, W47)
  {
    Rotations();
    hide Rotl;
  }

  lemma Follow3()
    ensures Follows(48) && Follows(49) && Follows(50) && Follows(51) && Follows(52) && Follows(53) && Follows(54)
    ensures Follows(55) && Follows(56) && Follows(57) && Follows(58) && Follows(59) && Follows(60) && Follows(61)
    ensures Follows(62) && Follows(63)
  {
    Table2(); Table3(); Schedule3();
    hide Word, Next;
  }

  lemma Schedule4()
    ensures W64 == Next(W61, W56, W50, W48) && W65 == Next(W62, W57, W51, W49) && W66 == Next(W63, W58, W52, W50)
    ensures W67 == Next(W64, W59, W53, W51) && W68 == Next(W65, W60, W54, W52) && W69 == Next(W66, W61, W55, W53)
    ensures W70 == Next(W67, W62, W56, W54) && W71 == Next(W68, W63, W57, W55) && W72 == Next(W69, W64, W58, W56)
    ensures W73 == Next(W70, W65, W59, W57) && W74 == Next(W71, W66, W60, W58) && W75 == Next(W72, W67, W61, W59)
    ensures W76 == Next(W73, W68, W62, W60) && W77 == Next(W74, W69, W63, W61) && W78 == Next(W75, W70, W64, W62)
    ensures W79 == Next(W76, W71, W65, W63)
  {
    Rotations();
    hide Rotl;
  }

  lemma Follow4()
    ensures Follows(64) && Follows(65) && Follows(66) && Follows(67) && Follows(68) && Follows(69) && Follows(70)
    ensures Follows(71) && Follows(72) && Follows(73) && Follows(74) && Follows(75) && Follows(76) && Follows(77)
    ensures Follows(78) && Follows(79)
  {
    Table3(); Table4(); Schedule4();
    hide Word, Next;
  }

  /** The table is the schedule of the message. */
  lemma {:induction false} WordIs(t: nat)
    requires t < ROUNDS
    ensures W(M(), t) == Word(t)
    decreases t
  {
    hide Word, M;
    if t < 16 {
      FirstWord(t);
    } else {
      WordIs(t - 3); WordIs(t - 8); WordIs(t - 14); WordIs(t - 16);
      AnyWord(t);
    }
  }

  lemma FirstWord(t: nat)
    requires t < 16
    ensures M()[t] == Word(t)
  {
    Table0();
    hide Word;
  }

  lemma AnyWord(t: nat)
    requires 16 <= t < ROUNDS
    ensures Follows(t)
  {
    hide Follows;
    Follow1(); Follow2(); Follow3(); Follow4();
  }

  // ----- the working variables -----

  const V0 := Vars(0x67452301, 0xefcdab89, 0x98badcfe, 0x10325476, 0xc3d2e1f0)
  const V1 := Vars(0x0116fc33, 0x67452301, 0x7bf36ae2, 0x98badcfe, 0x10325476)
  const V2 := Vars(0x8990536d, 0x0116fc33, 0x59d148c0, 0x7bf36ae2, 0x98badcfe)
  const V3 := Vars(0xa1390f08, 0x8990536d, 0xc045bf0c, 0x59d148c0, 0x7bf36ae2)
  const V4 := Vars(0xcdd8e11b, 0xa1390f08, 0x626414db, 0xc045bf0c, 0x59d148c0)
  const V5 := Vars(0xcfd499de, 0xcdd8e11b, 0x284e43c2, 0x626414db, 0xc045bf0c)
  const V6 := Vars(0x3fc7ca40, 0xcfd499de, 0xf3763846, 0x284e43c2, 0x626414db)
  const V7 := Vars(0x993e30c1, 0x3fc7ca40, 0xb3f52677, 0xf3763846, 0x284e43c2)
  const V8 := Vars(0x9e8c07d4, 0x993e30c1, 0x0ff1f290, 0xb3f52677, 0xf3763846)
  const V9 := Vars(0x4b6ae328, 0x9e8c07d4, 0x664f8c30, 0x0ff1f290, 0xb3f52677)
  const V10 := Vars(0x8351f929, 0x4b6ae328, 0x27a301f5, 0x664f8c30, 0x0ff1f290)
  const V11 := Vars(0xfbda9e89, 0x8351f929, 0x12dab8ca, 0x27a301f5, 0x664f8c30)
  const V12 := Vars(0x63188fe4, 0xfbda9e89, 0x60d47e4a, 0x12dab8ca, 0x27a301f5)
  const V13 := Vars(0x4607b664, 0x63188fe4, 0x7ef6a7a2, 0x60d47e4a, 0x12dab8ca)
  const V14 := Vars(0x9128f695, 0x4607b664, 0x18c623f9, 0x7ef6a7a2, 0x60d47e4a)
  const V15 := Vars(0x196bee77, 0x9128f695, 0x1181ed99, 0x18c623f9, 0x7ef6a7a2)
  const V16 := Vars(0x20bdd62f, 0x196bee77, 0x644a3da5, 0x1181ed99, 0x18c623f9)
  const V17 := Vars(0x4e925823, 0x20bdd62f, 0xc65afb9d, 0x644a3da5, 0x1181ed99)
  const V18 := Vars(0x82aa6728, 0x4e925823, 0xc82f758b, 0xc65afb9d, 0x644a3da5)
  const V19 := Vars(0xdc64901d, 0x82aa6728, 0xd3a49608, 0xc82f758b, 0xc65afb9d)
  const V20 := Vars(0xfd9e1d7d, 0xdc64901d, 0x20aa99ca, 0xd3a49608, 0xc82f758b)
  const V21 := Vars(0x1a37b0ca, 0xfd9e1d7d, 0x77192407, 0x20aa99ca, 0xd3a49608)
  const V22 := Vars(0x33a23bfc, 0x1a37b0ca, 0x7f67875f, 0x77192407, 0x20aa99ca)
  const V23 := Vars(0x21283486, 0x33a23bfc, 0x868dec32, 0x7f67875f, 0x77192407)
  const V24 := Vars(0xd541f12d, 0x21283486, 0x0ce88eff, 0x868dec32, 0x7f67875f)
  const V25 := Vars(0xc7567dc6, 0xd541f12d, 0x884a0d21, 0x0ce88eff, 0x868dec32)
  const V26 := Vars(0x48413ba4, 0xc7567dc6, 0x75507c4b, 0x884a0d21, 0x0ce88eff)
  const V27 := Vars(0xbe35fbd5, 0x48413ba4, 0xb1d59f71, 0x75507c4b, 0x884a0d21)
  const V28 := Vars(0x4aa84d97, 0xbe35fbd5, 0x12104ee9, 0xb1d59f71, 0x75507c4b)
  const V29 := Vars(0x8370b52e, 0x4aa84d97, 0x6f8d7ef5, 0x12104ee9, 0xb1d59f71)
  const V30 := Vars(0xc5fbaf5d, 0x8370b52e, 0xd2aa1365, 0x6f8d7ef5, 0x12104ee9)
  const V31 := Vars(0x1267b407, 0xc5fbaf5d, 0xa0dc2d4b, 0xd2aa1365, 0x6f8d7ef5)
  const V32 := Vars(0x3b845d33, 0x1267b407, 0x717eebd7, 0xa0dc2d4b, 0xd2aa1365)
  const V33 := Vars(0x046faa0a, 0x3b845d33, 0xc499ed01, 0x717eebd7, 0xa0dc2d4b)
  const V34 := Vars(0x2c0ebc11, 0x046faa0a, 0xcee1174c, 0xc499ed01, 0x717eebd7)
  const V35 := Vars(0x21796ad4, 0x2c0ebc11, 0x811bea82, 0xcee1174c, 0xc499ed01)
  const V36 := Vars(0xdcbbb0cb, 0x21796ad4, 0x4b03af04, 0x811bea82, 0xcee1174c)
  const V37 := Vars(0x0f511fd8, 0xdcbbb0cb, 0x085e5ab5, 0x4b03af04, 0x811bea82)
  const V38 := Vars(0xdc63973f, 0x0f511fd8, 0xf72eec32, 0x085e5ab5, 0x4b03af04)
  const V39 := Vars(0x4c986405, 0xdc63973f, 0x03d447f6, 0xf72eec32, 0x085e5ab5)
  const V40 := Vars(0x32de1cba, 0x4c986405, 0xf718e5cf, 0x03d447f6, 0xf72eec32)
  const V41 := Vars(0xfc87dedf, 0x32de1cba, 0x53261901, 0xf718e5cf, 0x03d447f6)
  const V42 := Vars(0x970a0d5c, 0xfc87dedf, 0x8cb7872e, 0x53261901, 0xf718e5cf)
  const V43 := Vars(0x7f193dc5, 0x970a0d5c, 0xff21f7b7, 0x8cb7872e, 0x53261901)
  const V44 := Vars(0xee1b1aaf, 0x7f193dc5, 0x25c28357, 0xff21f7b7, 0x8cb7872e)
  const V45 := Vars(0x40f28e09, 0xee1b1aaf, 0x5fc64f71, 0x25c28357, 0xff21f7b7)
  const V46 := Vars(0x1c51e1f2, 0x40f28e09, 0xfb86c6ab, 0x5fc64f71, 0x25c28357)
  const V47 := Vars(0xa01b846c, 0x1c51e1f2, 0x503ca382, 0xfb86c6ab, 0x5fc64f71)
  const V48 := Vars(0xbead02ca, 0xa01b846c, 0x8714787c, 0x503ca382, 0xfb86c6ab)
  const V49 := Vars(0xbaf39337, 0xbead02ca, 0x2806e11b, 0x8714787c, 0x503ca382)
  const V50 := Vars(0x120731c5, 0xbaf39337, 0xafab40b2, 0x2806e11b, 0x8714787c)
  const V51 := Vars(0x641db2ce, 0x120731c5, 0xeebce4cd, 0xafab40b2, 0x2806e11b)
  const V52 := Vars(0x3847ad66, 0x641db2ce, 0x4481cc71, 0xeebce4cd, 0xafab40b2)
  const V53 := Vars(0xe490436d, 0x3847ad66, 0x99076cb3, 0x4481cc71, 0xeebce4cd)
  const V54 := Vars(0x27e9f1d8, 0xe490436d, 0x8e11eb59, 0x99076cb3, 0x4481cc71)
  const V55 := Vars(0x7b71f76d, 0x27e9f1d8, 0x792410db, 0x8e11eb59, 0x99076cb3)
  const V56 := Vars(0x5e6456af, 0x7b71f76d, 0x09fa7c76, 0x792410db, 0x8e11eb59)
  const V57 := Vars(0xc846093f, 0x5e6456af, 0x5edc7ddb, 0x09fa7c76, 0x792410db)
  const V58 := Vars(0xd262ff50, 0xc846093f, 0xd79915ab, 0x5edc7ddb, 0x09fa7c76)
  const V59 := Vars(0x09d785fd, 0xd262ff50, 0xf211824f, 0xd79915ab, 0x5edc7ddb)
  const V60 := Vars(0x3f52de5a, 0x09d785fd, 0x3498bfd4, 0xf211824f, 0xd79915ab)
  const V61 := Vars(0xd756c147, 0x3f52de5a, 0x4275e17f, 0x3498bfd4, 0xf211824f)
  const V62 := Vars(0x548c9cb2, 0xd756c147, 0x8fd4b796, 0x4275e17f, 0x3498bfd4)
  const V63 := Vars(0xb66c020b, 0x548c9cb2, 0xf5d5b051, 0x8fd4b796, 0x4275e17f)
  const V64 := Vars(0x6b61c9e1, 0xb66c020b, 0x9523272c, 0xf5d5b051, 0x8fd4b796)
  const V65 := Vars(0x19dfa7ac, 0x6b61c9e1, 0xed9b0082, 0x9523272c, 0xf5d5b051)
  const V66 := Vars(0x101655f9, 0x19dfa7ac, 0x5ad87278, 0xed9b0082, 0x9523272c)
  const V67 := Vars(0x0c3df2b4, 0x101655f9, 0x0677e9eb, 0x5ad87278, 0xed9b0082)
  const V68 := Vars(0x78dd4d2b, 0x0c3df2b4, 0x4405957e, 0x0677e9eb, 0x5ad87278)
  const V69 := Vars(0x497093c0, 0x78dd4d2b, 0x030f7cad, 0x4405957e, 0x0677e9eb)
  const V70 := Vars(0x3f2588c2, 0x497093c0, 0xde37534a, 0x030f7cad, 0x4405957e)
  const V71 := Vars(0xc199f8c7, 0x3f2588c2, 0x125c24f0, 0xde37534a, 0x030f7cad)
  const V72 := Vars(0x39859de7, 0xc199f8c7, 0x8fc96230, 0x125c24f0, 0xde37534a)
  const V73 := Vars(0xedb42de4, 0x39859de7, 0xf0667e31, 0x8fc96230, 0x125c24f0)
  const V74 := Vars(0x11793f6f, 0xedb42de4, 0xce616779, 0xf0667e31, 0x8fc96230)
  const V75 := Vars(0x5ee76897, 0x11793f6f, 0x3b6d0b79, 0xce616779, 0xf0667e31)
  const V76 := Vars(0x63f7dab7, 0x5ee76897, 0xc45e4fdb, 0x3b6d0b79, 0xce616779)
  const V77 := Vars(0xa079b7d9, 0x63f7dab7, 0xd7b9da25, 0xc45e4fdb, 0x3b6d0b79)
  const V78 := Vars(0x860d21cc, 0xa079b7d9, 0xd8fdf6ad, 0xd7b9da25, 0xc45e4fdb)
  const V79 := Vars(0x5738d5e1, 0x860d21cc, 0x681e6df6, 0xd8fdf6ad, 0xd7b9da25)
  const V80 := Vars(0x42541b35, 0x5738d5e1, 0x21834873, 0x681e6df6, 0xd8fdf6ad)

  lemma Rounds1()
    ensures V1 == Round(V0, 0, W0) && V2 == Round(V1, 1, W1) && V3 == Round(V2, 2, W2) && V4 == Round(V3, 3, W3)
    ensures V5 == Round(V4, 4, W4) && V6 == Round(V5, 5, W5) && V7 == Round(V6, 6, W6) && V8 == Round(V7, 7, W7)
  {
    Rotations();
    hide Rotl;
  }

  lemma Rounds2()
    ensures V9 == Round(V8, 8, W8) && V10 == Round(V9, 9, W9) && V11 == Round(V10, 10, W10)
    ensures V12 == Round(V11, 11, W11) && V13 == Round(V12, 12, W12) && V14 == Round(V13, 13, W13)
    ensures V15 == Round(V14, 14, W14) && V16 == Round(V15, 15, W15)
  {
    Rotations();
    hide Rotl;
  }

  lemma Rounds3()
    ensures V17 == Round(V16, 16, W16) && V18 == Round(V17, 17, W17) && V19 == Round(V18, 18, W18)
    ensures V20 == Round(V19, 19, W19) && V21 == Round(V20, 20, W20) && V22 == Round(V21, 21, W21)
    ensures V23 == Round(V22, 22, W22) && V24 == Round(V23, 23, W23)
  {
    Rotations();
    hide Rotl;
  }

  lemma Rounds4()
    ensures V25 == Round(V24, 24, W24) && V26 == Round(V25, 25, W25) && V27 == Round(V26, 26, W26)
    ensures V28 == Round(V27, 27, W27) && V29 == Round(V28, 28, W28) && V30 == Round(V29, 29, W29)
    ensures V31 == Round(V30, 30, W30) && V32 == Round(V31, 31, W31)
  {
    Rotations();
    hide Rotl;
  }

  lemma Rounds5()
    ensures V33 == Round(V32, 32, W32) && V34 == Round(V33, 33, W33) && V35 == Round(V34, 34, W34)
    ensures V36 == Round(V35, 35, W35) && V37 == Round(V36, 36, W36) && V38 == Round(V37, 37, W37)
    ensures V39 == Round(V38, 38, W38) && V40 == Round(V39, 39, W39)
  {
    Rotations();
    hide Rotl;
  }

  lemma Rounds6()
    ensures V41 == Round(V40, 40, W40) && V42 == Round(V41, 41, W41) && V43 == Round(V42, 42, W42)
    ensures V44 == Round(V43, 43, W43) && V45 == Round(V44, 44, W44) && V46 == Round(V45, 45, W45)
    ensures V47 == Round(V46, 46, W46) && V48 == Round(V47, 47, W47)
  {
    Rotations();
    hide Rotl;
  }

  lemma Rounds7()
    ensures V49 == Round(V48, 48, W48) && V50 == Round(V49, 49, W49) && V51 == Round(V50, 50, W50)
    ensures V52 == Round(V51, 51, W51) && V53 == Round(V52, 52, W52) && V54 == Round(V53, 53, W53)
    ensures V55 == Round(V54, 54, W54) && V56 == Round(V55, 55, W55)
  {
    Rotations();
    hide Rotl;
  }

  lemma Rounds8()
    ensures V57 == Round(V56, 56, W56) && V58 == Round(V57, 57, W57) && V59 == Round(V58, 58, W58)
    ensures V60 == Round(V59, 59, W59) && V61 == Round(V60, 60, W60) && V62 == Round(V61, 61, W61)
    ensures V63 == Round(V62, 62, W62) && V64 == Round(V63, 63, W63)
  {
    Rotations();
    hide Rotl;
  }

  lemma Rounds9()
    ensures V65 == Round(V64, 64, W64) && V66 == Round(V65, 65, W65) && V67 == Round(V66, 66, W66)
    ensures V68 == Round(V67, 67, W67) && V69 == Round(V68, 68, W68) && V70 == Round(V69, 69, W69)
    ensures V71 == Round(V70, 70, W70) && V72 == Round(V71, 71, W71)
  {
    Rotations();
    hide Rotl;
  }

  lemma Rounds10()
    ensures V73 == Round(V72, 72, W72) && V74 == Round(V73, 73, W73) && V75 == Round(V74, 74, W74)
    ensures V76 == Round(V75, 75, W75) && V77 == Round(V76, 76, W76) && V78 == Round(V77, 77, W77)
    ensures V79 == Round(V78, 78, W78) && V80 == Round(V79, 79, W79)
  {
    Rotations();
    hide Rotl;
  }

  lemma NextRound(t: nat)
    requires t < ROUNDS
    ensures After(V0, M(), t + 1) == Round(After(V0, M(), t), t, Word(t))
  {
    WordIs(t);
  }

  lemma NoRound()
    ensures After(V0, M(), 0) == V0
  {
  }

  lemma After1()
    ensures After(V0, M(), 16) == V16
  {
    hide After, Word, M, K, Round;
    NoRound(); Table0(); Rounds1(); Rounds2();
    NextRound(0); NextRound(1); NextRound(2); NextRound(3); NextRound(4); NextRound(5); NextRound(6); NextRound(7);
    NextRound(8); NextRound(9); NextRound(10); NextRound(11); NextRound(12); NextRound(13); NextRound(14);
    NextRound(15);
  }

  lemma After2()
    ensures After(V0, M(), 32) == V32
  {
    hide After, Word, M, K, Round;
    After1(); Table1(); Rounds3(); Rounds4();
    NextRound(16); NextRound(17); NextRound(18); NextRound(19); NextRound(20); NextRound(21); NextRound(22);
    NextRound(23); NextRound(24); NextRound(25); NextRound(26); NextRound(27); NextRound(28); NextRound(29);
    NextRound(30); NextRound(31);
  }

  lemma After3()
    ensures After(V0, M(), 48) == V48
  {
    hide After, Word, M, K, Round;
    After2(); Table2(); Rounds5(); Rounds6();
    NextRound(32); NextRound(33); NextRound(34); NextRound(35); NextRound(36); NextRound(37); NextRound(38);
    NextRound(39); NextRound(40); NextRound(41); NextRound(42); NextRound(43); NextRound(44); NextRound(45);
    NextRound(46); NextRound(47);
  }

  lemma After4()
    ensures After(V0, M(), 64) == V64
  {
    hide After, Word, M, K, Round;
    After3(); Table3(); Rounds7(); Rounds8();
    NextRound(48); NextRound(49); NextRound(50); NextRound(51); NextRound(52); NextRound(53); NextRound(54);
    NextRound(55); NextRound(56); NextRound(57); NextRound(58); NextRound(59); NextRound(60); NextRound(61);
    NextRound(62); NextRound(63);
  }

  lemma After5()
    ensures After(V0, M(), 80) == V80
  {
    hide After, Word, M, K, Round;
    After4(); Table4(); Rounds9(); Rounds10();
    NextRound(64); NextRound(65); NextRound(66); NextRound(67); NextRound(68); NextRound(69); NextRound(70);
    NextRound(71); NextRound(72); NextRound(73); NextRound(74); NextRound(75); NextRound(76); NextRound(77);
    NextRound(78); NextRound(79);
  }

  // ----- the digest -----

  lemma BlockIs()
    ensures |Pad(SHA1, ABC)| == 64 && Block(Pad(SHA1, ABC)) == M()
  {
    PaddedIs(SHA1);
    var p := Pad(SHA1, ABC);
    hide Pad;
    forall i | 0 <= i < 16
      ensures Word32(p, i) == M()[i]
    {
      if 0 < i < 15 { assert M()[i] == 0; }
    }
    assert Block(p) == M();
  }

  lemma StartIs()
    ensures InitialValue(SHA1) == Value.V1(V0)
  {
  }

  lemma HashIs()
    ensures Hash(SHA1, Pad(SHA1, ABC)) == Value.V1(Compress(V0, M()))
  {
    hide Compress, M, Block, InitialValue, Pad, Hash;
    BlockIs();
    StartIs();
    OneBlock(SHA1, Pad(SHA1, ABC));
  }

  lemma CompressedIs()
    ensures Compress(V0, M()) ==
      Vars(0xa9993e36, 0x4706816a, 0xba3e2571, 0x7850c26c, 0x9cd0d89d)
  {
    After5();
    hide After, M;
  }

  lemma BytesAre()
    ensures Bytes32(0xa9993e36) == [0xa9, 0x99, 0x3e, 0x36]
    ensures Bytes32(0x4706816a) == [0x47, 0x06, 0x81, 0x6a]
    ensures Bytes32(0xba3e2571) == [0xba, 0x3e, 0x25, 0x71]
    ensures Bytes32(0x7850c26c) == [0x78, 0x50, 0xc2, 0x6c]
    ensures Bytes32(0x9cd0d89d) == [0x9c, 0xd0, 0xd8, 0x9d]
  {
  }

  /** The digest of "abc". */
  lemma DigestIs()
    ensures Digest(SHA1, ABC) ==
      [0xa9, 0x99, 0x3e, 0x36] + [0x47, 0x06, 0x81, 0x6a] + [0xba, 0x3e, 0x25, 0x71] + [0x78, 0x50, 0xc2, 0x6c] +
      [0x9c, 0xd0, 0xd8, 0x9d]
  {
    HashIs();
    CompressedIs();
    BytesAre();
    hide Hash, Compress, Bytes32, Pad;
  }
}
