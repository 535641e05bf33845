/**
 * SHA-256 of the three bytes "abc", the one-block example for FIPS 180-4: the message schedule and the working
 * variables after every round, each checked against the definition, and the digest.
 */
module Sha256Example {
  import opened ShaBytes
  import opened ShaSpec
  import opened ShaExample
  import opened Sha256

  // ----- the message schedule -----

  const W0: bv32 := 0x61626380  const W1: bv32 := 0x00000000  const W2: bv32 := 0x00000000
  const W3: bv32 := 0x00000000  const W4: bv32 := 0x00000000  const W5: bv32 := 0x00000000
  const W6: bv32 := 0x00000000  const W7: bv32 := 0x00000000  const W8: bv32 := 0x00000000
  const W9: bv32 := 0x00000000  const W10: bv32 := 0x00000000  const W11: bv32 := 0x00000000
  const W12: bv32 := 0x00000000  const W13: bv32 := 0x00000000  const W14: bv32 := 0x00000000
  const W15: bv32 := 0x00000018  const W16: bv32 := 0x61626380  const W17: bv32 := 0x000f0000
  const W18: bv32 := 0x7da86405  const W19: bv32 := 0x600003c6  const W20: bv32 := 0x3e9d7b78
  const W21: bv32 := 0x0183fc00  const W22: bv32 := 0x12dcbfdb  const W23: bv32 := 0xe2e2c38e
  const W24: bv32 := 0xc8215c1a  const W25: bv32 := 0xb73679a2  const W26: bv32 := 0xe5bc3909
  const W27: bv32 := 0x32663c5b  const W28: bv32 := 0x9d209d67  const W29: bv32 := 0xec8726cb
  const W30: bv32 := 0x702138a4  const W31: bv32 := 0xd3b7973b  const W32: bv32 := 0x93f5997f
  const W33: bv32 := 0x3b68ba73  const W34: bv32 := 0xaff4ffc1  const W35: bv32 := 0xf10a5c62
  const W36: bv32 := 0x0a8b3996  const W37: bv32 := 0x72af830a  const W38: bv32 := 0x9409e33e
  const W39: bv32 := 0x24641522  const W40: bv32 := 0x9f47bf94  const W41: bv32 := 0xf0a64f5a
  const W42: bv32 := 0x3e246a79  const W43: bv32 := 0x27333ba3  const W44: bv32 := 0x0c4763f2
  const W45: bv32 := 0x840abf27  const W46: bv32 := 0x7a290d5d  const W47: bv32 := 0x065c43da
  const W48: bv32 := 0xfb3e89cb  const W49: bv32 := 0xcc7617db  const W50: bv32 := 0xb9e66c34
  const W51: bv32 := 0xa9993667  const W52: bv32 := 0x84badedd  const W53: bv32 := 0xc21462bc
  const W54: bv32 := 0x1487472c  const W55: bv32 := 0xb20f7a99  const W56: bv32 := 0xef57b9cd
  const W57: bv32 := 0xebe6b238  const W58: bv32 := 0x9fe3095e  const W59: bv32 := 0x78bc8d4b
  const W60: bv32 := 0xa43fcf15  const W61: bv32 := 0x668b2ff8  const W62: bv32 := 0xeeaba2cc
  const W63: bv32 := 0x12b1edeb

  /** The padded message as one block. */
  function M(): (m: seq<bv32>)
    ensures |m| == 16
  {
    [W0, W1, W2, W3, W4, W5, W6, W7, W8, W9, W10, W11, W12, W13, W14, W15]
  }

  /** The schedule as a table. */
  const ROWS: seq<seq<bv32>> := [
    [W0, W1, W2, W3, W4, W5, W6, W7],
    [W8, W9, W10, W11, W12, W13, W14, W15],
    [W16, W17, W18, W19, W20, W21, W22, W23],
    [W24, W25, W26, W27, W28, W29, W30, W31],
    [W32, W33, W34, W35, W36, W37, W38, W39],
    [W40, W41, W42, W43, W44, W45, W46, W47],
    [W48, W49, W50, W51, W52, W53, W54, W55],
    [W56, W57, W58, W59, W60, W61, W62, W63]]

  function Word(t: nat): bv32
    requires t < ROUNDS
  {
    ROWS[t / 8][t % 8]
  }

  /** A word of the schedule from four before it. */
  function Next(w2: bv32, w7: bv32, w15: bv32, w16: bv32): bv32 {
    Sum4(SmallSigma1(w2), w7, SmallSigma0(w15), w16)
  }

  predicate Follows(t: nat)
    requires 16 <= t < ROUNDS
  {
    Word(t) == Next(Word(t - 2), Word(t - 7), Word(t - 15), Word(t - 16))
  }

  /** The rotations with shifts by literals. */
  lemma Rotated(x: bv32)
    ensures Rotr(x, 2) == (x >> 2) | (x << 30) && Rotr(x, 6) == (x >> 6) | (x << 26)
    ensures Rotr(x, 7) == (x >> 7) | (x << 25) && Rotr(x, 11) == (x >> 11) | (x << 21)
    ensures Rotr(x, 13) == (x >> 13) | (x << 19) && Rotr(x, 17) == (x >> 17) | (x << 15)
    ensures Rotr(x, 18) == (x >> 18) | (x << 14) && Rotr(x, 19) == (x >> 19) | (x << 13)
    ensures Rotr(x, 22) == (x >> 22) | (x << 10) && Rotr(x, 25) == (x >> 25) | (x << 7)
  {
  }

  lemma Rotations()
    ensures forall x: bv32 :: Rotr(x, 2) == (x >> 2) | (x << 30) && Rotr(x, 6) == (x >> 6) | (x << 26)
    ensures forall x: bv32 :: Rotr(x, 7) == (x >> 7) | (x << 25) && Rotr(x, 11) == (x >> 11) | (x << 21)
    ensures forall x: bv32 :: Rotr(x, 13) == (x >> 13) | (x << 19) && Rotr(x, 17) == (x >> 17) | (x << 15)
    ensures forall x: bv32 :: Rotr(x, 18) == (x >> 18) | (x << 14) && Rotr(x, 19) == (x >> 19) | (x << 13)
    ensures forall x: bv32 :: Rotr(x, 22) == (x >> 22) | (x << 10) && Rotr(x, 25) == (x >> 25) | (x << 7)
  {
    hide Rotr;
    forall x: bv32
      ensures Rotr(x, 2) == (x >> 2) | (x << 30) && Rotr(x, 6) == (x >> 6) | (x << 26)
      ensures Rotr(x, 7) == (x >> 7) | (x << 25) && Rotr(x, 11) == (x >> 11) | (x << 21)
      ensures Rotr(x, 13) == (x >> 13) | (x << 19) && Rotr(x, 17) == (x >> 17) | (x << 15)
      ensures Rotr(x, 18) == (x >> 18) | (x << 14) && Rotr(x, 19) == (x >> 19) | (x << 13)
      ensures Rotr(x, 22) == (x >> 22) | (x << 10) && Rotr(x, 25) == (x >> 25) | (x << 7)
    {
      Rotated(x);
    }
  }

  lemma Table0()
    ensures Word(0) == W0 && Word(1) == W1 && Word(2) == W2 && Word(3) == W3 && Word(4) == W4 && Word(5) == W5
    ensures Word(6) == W6 && Word(7) == W7 && Word(8) == W8 && Word(9) == W9 && Word(10) == W10 && Word(11) == W11
    ensures Word(12) == W12 && Word(13) == W13 && Word(14) == W14 && Word(15) == W15
  {
  }

  lemma Table1()
    ensures Word(16) == W16 && Word(17) == W17 && Word(18) == W18 && Word(19) == W19 && Word(20) == W20
    ensures Word(21) == W21 && Word(22) == W22 && Word(23) == W23 && Word(24) == W24 && Word(25) == W25
    ensures Word(26) == W26 && Word(27) == W27 && Word(28) == W28 && Word(29) == W29 && Word(30) == W30
    ensures Word(31) == W31
  {
  }

  lemma Table2()
    ensures Word(32) == W32 && Word(33) == W33 && Word(34) == W34 && Word(35) == W35 && Word(36) == W36
    ensures Word(37) == W37 && Word(38) == W38 && Word(39) == W39 && Word(40) == W40 && Word(41) == W41
    ensures Word(42) == W42 && Word(43) == W43 && Word(44) == W44 && Word(45) == W45 && Word(46) == W46
    ensures Word(47) == W47
  {
  }

  lemma Table3()
    ensures Word(48) == W48 && Word(49) == W49 && Word(50) == W50 && Word(51) == W51 && Word(52) == W52
    ensures Word(53) == W53 && Word(54) == W54 && Word(55) == W55 && Word(56) == W56 && Word(57) == W57
    ensures Word(58) == W58 && Word(59) == W59 && Word(60) == W60 && Word(61) == W61 && Word(62) == W62
    ensures Word(63) == W63
  {
  }

  lemma Schedule1()
    ensures W16 == Next(W14, W9, W1, W0) && W17 == Next(W15, W10, W2, W1) && W18 == Next(W16, W11, W3, W2)
    ensures W19 == Next(W17, W12, W4, W3) && W20 == Next(W18, W13, W5, W4) && W21 == Next(W19, W14, W6, W5)
    ensures W22 == Next(W20, W15, W7, W6) && W23 == Next(W21, W16, W8, W7) && W24 == Next(W22, W17, W9, W8)
    ensures W25 == Next(W23, W18, W10, W9) && W26 == Next(W24, W19, W11, W10) && W27 == Next(W25, W20, W12, W11)
    ensures W28 == Next(W26, W21, W13, W12) && W29 == Next(W27, W22, W14, W13) && W30 == Next(W28, W23, W15, W14)
    ensures W31 == Next(W29, W24, W16, W15)
  {
    Rotations();
    hide Rotr;
  }

  lemma Follow1()
    ensures Follows(16) && Follows(17) && Follows(18) && Follows(19) && Follows(20) && Follows(21) && Follows(22)
    ensures Follows(23) && Follows(24) && Follows(25) && Follows(26) && Follows(27) && Follows(28) && Follows(29)
    ensures Follows(30) && Follows(31)
  {
    Table0(); Table1(); Schedule1();
    hide Word, Next;
  }

  lemma Schedule2()
    ensures W32 == Next(W30, W25, W17, W16) && W33 == Next(W31, W26, W18, W17) && W34 == Next(W32, W27, W19, W18)
    ensures W35 == Next(W33, W28, W20, W19) && W36 == Next(W34, W29, W21, W20) && W37 == Next(W35, W30, W22, W21)
    ensures W38 == Next(W36, W31, W23, W22) && W39 == Next(W37, W32, W24, W23) && W40 == Next(W38, W33, W25, W24)
    ensures W41 == Next(W39, W34, W26, W25) && W42 == Next(W40, W35, W27, W26) && W43 == Next(W41, W36, W28, W27)
    ensures W44 == Next(W42, W37, W29, W28) && W45 == Next(W43, W38, W30, W29) && W46 == Next(W44, W39, W31, W30)
    ensures W47 == Next(W45, W40, W32, W31)
  {
    Rotations();
    hide Rotr;
  }

  lemma Follow2()
    ensures Follows(32) && Follows(33) && Follows(34) && Follows(35) && Follows(36) && Follows(37) && Follows(38)
    ensures Follows(39) && Follows(40) && Follows(41) && Follows(42) && Follows(43) && Follows(44) && Follows(45)
    ensures Follows(46) && Follows(47)
  {
    Table1(); Table2(); Schedule2();
    hide Word, Next;
  }

  lemma Schedule3()
    ensures W48 == Next(W46, W41, W33, W32) && W49 == Next(W47, W42, W34, W33) && W50 == Next(W48, W43, W35, W34)
    ensures W51 == Next(W49, W44, W36, W35) && W52 == Next(W50, W45, W37, W36) && W53 == Next(W51, W46, W38, W37)
    ensures W54 == Next(W52, W47, W39, W38) && W55 == Next(W53, W48, W40, W39) && W56 == Next(W54, W49, W41, W40)
    ensures W57 == Next(W55, W50, W42, W41) && W58 == Next(W56, W51, W43, W42) && W59 == Next(W57, W52, W44, W43)
    ensures W60 == Next(W58, W53, W45, W44) && W61 == Next(W59, W54, W46, W45) && W62 == Next(W60, W55, W47, W46)
    ensures W63 == Next(W61, W56, W48, W47)
  {
    Rotations();
    hide Rotr;
  }

  lemma Follow3()
    ensures Follows(48) && Follows(49) && Follows(50) && Follows(51) && Follows(52) && Follows(53) && Follows(54)
    ensures Follows(55) && Follows(56) && Follows(57) && Follows(58) && Follows(59) && Follows(60) && Follows(61)
    ensures Follows(62) && Follows(63)
  {
    Table2(); Table3(); Schedule3();
    hide Word, Next;
  }

  /** The table is the schedule of the message. */
  lemma {:induction false} WordIs(t: nat)
    requires t < ROUNDS
    ensures W(M(), t) == Word(t)
    decreases t
  {
    hide Word, M;
    if t < 16 {
      FirstWord(t);
    } else {
      WordIs(t - 2); WordIs(t - 7); WordIs(t - 15); WordIs(t - 16);
      AnyWord(t);
    }
  }

  lemma FirstWord(t: nat)
    requires t < 16
    ensures M()[t] == Word(t)
  {
    Table0();
    hide Word;
  }

  lemma AnyWord(t: nat)
    requires 16 <= t < ROUNDS
    ensures Follows(t)
  {
    hide Follows;
    Follow1(); Follow2(); Follow3();
  }

  // ----- the working variables -----

  const V0 := Vars(0x6a09e667, 0xbb67ae85, 0x3c6ef372, 0xa54ff53a, 0x510e527f, 0x9b05688c, 0x1f83d9ab, 0x5be0cd19)
  const V1 := Vars(0x5d6aebcd, 0x6a09e667, 0xbb67ae85, 0x3c6ef372, 0xfa2a4622, 0x510e527f, 0x9b05688c, 0x1f83d9ab)
  const V2 := Vars(0x5a6ad9ad, 0x5d6aebcd, 0x6a09e667, 0xbb67ae85, 0x78ce7989, 0xfa2a4622, 0x510e527f, 0x9b05688c)
  const V3 := Vars(0xc8c347a7, 0x5a6ad9ad, 0x5d6aebcd, 0x6a09e667, 0xf92939eb, 0x78ce7989, 0xfa2a4622, 0x510e527f)
  const V4 := Vars(0xd550f666, 0xc8c347a7, 0x5a6ad9ad, 0x5d6aebcd, 0x24e00850, 0xf92939eb, 0x78ce7989, 0xfa2a4622)
  const V5 := Vars(0x04409a6a, 0xd550f666, 0xc8c347a7, 0x5a6ad9ad, 0x43ada245, 0x24e00850, 0xf92939eb, 0x78ce7989)
  const V6 := Vars(0x2b4209f5, 0x04409a6a, 0xd550f666, 0xc8c347a7, 0x714260ad, 0x43ada245, 0x24e00850, 0xf92939eb)
  const V7 := Vars(0xe5030380, 0x2b4209f5, 0x04409a6a, 0xd550f666, 0x9b27a401, 0x714260ad, 0x43ada245, 0x24e00850)
  const V8 := Vars(0x85a07b5f, 0xe5030380, 0x2b4209f5, 0x04409a6a, 0x0c657a79, 0x9b27a401, 0x714260ad, 0x43ada245)
  const V9 := Vars(0x8e04ecb9, 0x85a07b5f, 0xe5030380, 0x2b4209f5, 0x32ca2d8c, 0x0c657a79, 0x9b27a401, 0x714260ad)
  const V10 := Vars(0x8c87346b, 0x8e04ecb9, 0x85a07b5f, 0xe5030380, 0x1cc92596, 0x32ca2d8c, 0x0c657a79, 0x9b27a401)
  const V11 := Vars(0x4798a3f4, 0x8c87346b, 0x8e04ecb9, 0x85a07b5f, 0x436b23e8, 0x1cc92596, 0x32ca2d8c, 0x0c657a79)
  const V12 := Vars(0xf71fc5a9, 0x4798a3f4, 0x8c87346b, 0x8e04ecb9, 0x816fd6e9, 0x436b23e8, 0x1cc92596, 0x32ca2d8c)
  const V13 := Vars(0x87912990, 0xf71fc5a9, 0x4798a3f4, 0x8c87346b, 0x1e578218, 0x816fd6e9, 0x436b23e8, 0x1cc92596)
  const V14 := Vars(0xd932eb16, 0x87912990, 0xf71fc5a9, 0x4798a3f4, 0x745a48de, 0x1e578218, 0x816fd6e9, 0x436b23e8)
  const V15 := Vars(0xc0645fde, 0xd932eb16, 0x87912990, 0xf71fc5a9, 0x0b92f20c, 0x745a48de, 0x1e578218, 0x816fd6e9)
  const V16 := Vars(0xb0fa238e, 0xc0645fde, 0xd932eb16, 0x87912990, 0x07590dcd, 0x0b92f20c, 0x745a48de, 0x1e578218)
  const V17 := Vars(0x21da9a9b, 0xb0fa238e, 0xc0645fde, 0xd932eb16, 0x8034229c, 0x07590dcd, 0x0b92f20c, 0x745a48de)
  const V18 := Vars(0xc2fbd9d1, 0x21da9a9b, 0xb0fa238e, 0xc0645fde, 0x846ee454, 0x8034229c, 0x07590dcd, 0x0b92f20c)
  const V19 := Vars(0xfe777bbf, 0xc2fbd9d1, 0x21da9a9b, 0xb0fa238e, 0xcc899961, 0x846ee454, 0x8034229c, 0x07590dcd)
  const V20 := Vars(0xe1f20c33, 0xfe777bbf, 0xc2fbd9d1, 0x21da9a9b, 0xb0638179, 0xcc899961, 0x846ee454, 0x8034229c)
  const V21 := Vars(0x9dc68b63, 0xe1f20c33, 0xfe777bbf, 0xc2fbd9d1, 0x8ada8930, 0xb0638179, 0xcc899961, 0x846ee454)
  const V22 := Vars(0xc2606d6d, 0x9dc68b63, 0xe1f20c33, 0xfe777bbf, 0xe1257970, 0x8ada8930, 0xb0638179, 0xcc899961)
  const V23 := Vars(0xa7a3623f, 0xc2606d6d, 0x9dc68b63, 0xe1f20c33, 0x49f5114a, 0xe1257970, 0x8ada8930, 0xb0638179)
  const V24 := Vars(0xc5d53d8d, 0xa7a3623f, 0xc2606d6d, 0x9dc68b63, 0xaa47c347, 0x49f5114a, 0xe1257970, 0x8ada8930)
  const V25 := Vars(0x1c2c2838, 0xc5d53d8d, 0xa7a3623f, 0xc2606d6d, 0x2823ef91, 0xaa47c347, 0x49f5114a, 0xe1257970)
  const V26 := Vars(0xcde8037d, 0x1c2c2838, 0xc5d53d8d, 0xa7a3623f, 0x14383d8e, 0x2823ef91, 0xaa47c347, 0x49f5114a)
  const V27 := Vars(0xb62ec4bc, 0xcde8037d, 0x1c2c2838, 0xc5d53d8d, 0xc74c6516, 0x14383d8e, 0x2823ef91, 0xaa47c347)
  const V28 := Vars(0x77d37528, 0xb62ec4bc, 0xcde8037d, 0x1c2c2838, 0xedffbff8, 0xc74c6516, 0x14383d8e, 0x2823ef91)
  const V29 := Vars(0x363482c9, 0x77d37528, 0xb62ec4bc, 0xcde8037d, 0x6112a3b7, 0xedffbff8, 0xc74c6516, 0x14383d8e)
  const V30 := Vars(0xa0060b30, 0x363482c9, 0x77d37528, 0xb62ec4bc, 0xade79437, 0x6112a3b7, 0xedffbff8, 0xc74c6516)
  const V31 := Vars(0xea992a22, 0xa0060b30, 0x363482c9, 0x77d37528, 0x0109ab3a, 0xade79437, 0x6112a3b7, 0xedffbff8)
  const V32 := Vars(0x73b33bf5, 0xea992a22, 0xa0060b30, 0x363482c9, 0xba591112, 0x0109ab3a, 0xade79437, 0x6112a3b7)
  const V33 := Vars(0x98e12507, 0x73b33bf5, 0xea992a22, 0xa0060b30, 0x9cd9f5f6, 0xba591112, 0x0109ab3a, 0xade79437)
  const V34 := Vars(0xfe604df5, 0x98e12507, 0x73b33bf5, 0xea992a22, 0x59249dd3, 0x9cd9f5f6, 0xba591112, 0x0109ab3a)
  const V35 := Vars(0xa9a7738c, 0xfe604df5, 0x98e12507, 0x73b33bf5, 0x085f3833, 0x59249dd3, 0x9cd9f5f6, 0xba591112)
  const V36 := Vars(0x65a0cfe4, 0xa9a7738c, 0xfe604df5, 0x98e12507, 0xf4b002d6, 0x085f3833, 0x59249dd3, 0x9cd9f5f6)
  const V37 := Vars(0x41a65cb1, 0x65a0cfe4, 0xa9a7738c, 0xfe604df5, 0x0772a26b, 0xf4b002d6, 0x085f3833, 0x59249dd3)
  const V38 := Vars(0x34df1604, 0x41a65cb1, 0x65a0cfe4, 0xa9a7738c, 0xa507a53d, 0x0772a26b, 0xf4b002d6, 0x085f3833)
  const V39 := Vars(0x6dc57a8a, 0x34df1604, 0x41a65cb1, 0x65a0cfe4, 0xf0781bc8, 0xa507a53d, 0x0772a26b, 0xf4b002d6)
  const V40 := Vars(0x79ea687a, 0x6dc57a8a, 0x34df1604, 0x41a65cb1, 0x1efbc0a0, 0xf0781bc8, 0xa507a53d, 0x0772a26b)
  const V41 := Vars(0xd6670766, 0x79ea687a, 0x6dc57a8a, 0x34df1604, 0x26352d63, 0x1efbc0a0, 0xf0781bc8, 0xa507a53d)
  const V42 := Vars(0xdf46652f, 0xd6670766, 0x79ea687a, 0x6dc57a8a, 0x838b2711, 0x26352d63, 0x1efbc0a0, 0xf0781bc8)
  const V43 := Vars(0x17aa0dfe, 0xdf46652f, 0xd6670766, 0x79ea687a, 0xdecd4715, 0x838b2711, 0x26352d63, 0x1efbc0a0)
  const V44 := Vars(0x9d4baf93, 0x17aa0dfe, 0xdf46652f, 0xd6670766, 0xfda24c2e, 0xdecd4715, 0x838b2711, 0x26352d63)
  const V45 := Vars(0x26628815, 0x9d4baf93, 0x17aa0dfe, 0xdf46652f, 0xa80f11f0, 0xfda24c2e, 0xdecd4715, 0x838b2711)
  const V46 := Vars(0x72ab4b91, 0x26628815, 0x9d4baf93, 0x17aa0dfe, 0xb7755da1, 0xa80f11f0, 0xfda24c2e, 0xdecd4715)
  const V47 := Vars(0xa14c14b0, 0x72ab4b91, 0x26628815, 0x9d4baf93, 0xd57b94a9, 0xb7755da1, 0xa80f11f0, 0xfda24c2e)
  const V48 := Vars(0x4172328d, 0xa14c14b0, 0x72ab4b91, 0x26628815, 0xfecf0bc6, 0xd57b94a9, 0xb7755da1, 0xa80f11f0)
  const V49 := Vars(0x05757ceb, 0x4172328d, 0xa14c14b0, 0x72ab4b91, 0xbd714038, 0xfecf0bc6, 0xd57b94a9, 0xb7755da1)
  const V50 := Vars(0xf11bfaa8, 0x05757ceb, 0x4172328d, 0xa14c14b0, 0x6e5c390c, 0xbd714038, 0xfecf0bc6, 0xd57b94a9)
  const V51 := Vars(0x7a0508a1, 0xf11bfaa8, 0x05757ceb, 0x4172328d, 0x52f1ccf7, 0x6e5c390c, 0xbd714038, 0xfecf0bc6)
  const V52 := Vars(0x886e7a22, 0x7a0508a1, 0xf11bfaa8, 0x05757ceb, 0x49231c1e, 0x52f1ccf7, 0x6e5c390c, 0xbd714038)
  const V53 := Vars(0x101fd28f, 0x886e7a22, 0x7a0508a1, 0xf11bfaa8, 0x529e7d00, 0x49231c1e, 0x52f1ccf7, 0x6e5c390c)
  const V54 := Vars(0xf5702fdb, 0x101fd28f, 0x886e7a22, 0x7a0508a1, 0x9f4787c3, 0x529e7d00, 0x49231c1e, 0x52f1ccf7)
  const V55 := Vars(0x3ec45cdb, 0xf5702fdb, 0x101fd28f, 0x886e7a22, 0xe50e1b4f, 0x9f4787c3, 0x529e7d00, 0x49231c1e)
  const V56 := Vars(0x38cc9913, 0x3ec45cdb, 0xf5702fdb, 0x101fd28f, 0x54cb266b, 0xe50e1b4f, 0x9f4787c3, 0x529e7d00)
  const V57 := Vars(0xfcd1887b, 0x38cc9913, 0x3ec45cdb, 0xf5702fdb, 0x9b5e906c, 0x54cb266b, 0xe50e1b4f, 0x9f4787c3)
  const V58 := Vars(0xc062d46f, 0xfcd1887b, 0x38cc9913, 0x3ec45cdb, 0x7e44008e, 0x9b5e906c, 0x54cb266b, 0xe50e1b4f)
  const V59 := Vars(0xffb70472, 0xc062d46f, 0xfcd1887b, 0x38cc9913, 0x6d83bfc6, 0x7e44008e, 0x9b5e906c, 0x54cb266b)
  const V60 := Vars(0xb6ae8fff, 0xffb70472, 0xc062d46f, 0xfcd1887b, 0xb21bad3d, 0x6d83bfc6, 0x7e44008e, 0x9b5e906c)
  const V61 := Vars(0xb85e2ce9, 0xb6ae8fff, 0xffb70472, 0xc062d46f, 0x961f4894, 0xb21bad3d, 0x6d83bfc6, 0x7e44008e)
  const V62 := Vars(0x04d24d6c, 0xb85e2ce9, 0xb6ae8fff, 0xffb70472, 0x948d25b6, 0x961f4894, 0xb21bad3d, 0x6d83bfc6)
  const V63 := Vars(0xd39a2165, 0x04d24d6c, 0xb85e2ce9, 0xb6ae8fff, 0xfb121210, 0x948d25b6, 0x961f4894, 0xb21bad3d)
  const V64 := Vars(0x506e3058, 0xd39a2165, 0x04d24d6c, 0xb85e2ce9, 0x5ef50f24, 0xfb121210, 0x948d25b6, 0x961f4894)

  lemma Rounds1()
    ensures V1 == Round(V0, K(0), W0) && V2 == Round(V1, K(1), W1) && V3 == Round(V2, K(2), W2)
    ensures V4 == Round(V3, K(3), W3) && V5 == Round(V4, K(4), W4) && V6 == Round(V5, K(5), W5)
    ensures V7 == Round(V6, K(6), W6) && V8 == Round(V7, K(7), W7)
  {
    Rotations();
    hide Rotr;
  }

  lemma Rounds2()
    ensures V9 == Round(V8, K(8), W8) && V10 == Round(V9, K(9), W9) && V11 == Round(V10, K(10), W10)
    ensures V12 == Round(V11, K(11), W11) && V13 == Round(V12, K(12), W12) && V14 == Round(V13, K(13), W13)
    ensures V15 == Round(V14, K(14), W14) && V16 == Round(V15, K(15), W15)
  {
    Rotations();
    hide Rotr;
  }

  lemma Rounds3()
    ensures V17 == Round(V16, K(16), W16) && V18 == Round(V17, K(17), W17) && V19 == Round(V18, K(18), W18)
    ensures V20 == Round(V19, K(19), W19) && V21 == Round(V20, K(20), W20) && V22 == Round(V21, K(21), W21)
    ensures V23 == Round(V22, K(22), W22) && V24 == Round(V23, K(23), W23)
  {
    Rotations();
    hide Rotr;
  }

  lemma Rounds4()
    ensures V25 == Round(V24, K(24), W24) && V26 == Round(V25, K(25), W25) && V27 == Round(V26, K(26), W26)
    ensures V28 == Round(V27, K(27), W27) && V29 == Round(V28, K(28), W28) && V30 == Round(V29, K(29), W29)
    ensures V31 == Round(V30, K(30), W30) && V32 == Round(V31, K(31), W31)
  {
    Rotations();
    hide Rotr;
  }

  lemma Rounds5()
    ensures V33 == Round(V32, K(32), W32) && V34 == Round(V33, K(33), W33) && V35 == Round(V34, K(34), W34)
    ensures V36 == Round(V35, K(35), W35) && V37 == Round(V36, K(36), W36) && V38 == Round(V37, K(37), W37)
    ensures V39 == Round(V38, K(38), W38) && V40 == Round(V39, K(39), W39)
  {
    Rotations();
    hide Rotr;
  }

  lemma Rounds6()
    ensures V41 == Round(V40, K(40), W40) && V42 == Round(V41, K(41), W41) && V43 == Round(V42, K(42), W42)
    ensures V44 == Round(V43, K(43), W43) && V45 == Round(V44, K(44), W44) && V46 == Round(V45, K(45), W45)
    ensures V47 == Round(V46, K(46), W46) && V48 == Round(V47, K(47), W47)
  {
    Rotations();
    hide Rotr;
  }

  lemma Rounds7()
    ensures V49 == Round(V48, K(48), W48) && V50 == Round(V49, K(49), W49) && V51 == Round(V50, K(50), W50)
    ensures V52 == Round(V51, K(51), W51) && V53 == Round(V52, K(52), W52) && V54 == Round(V53, K(53), W53)
    ensures V55 == Round(V54, K(54), W54) && V56 == Round(V55, K(55), W55)
  {
    Rotations();
    hide Rotr;
  }

  lemma Rounds8()
    ensures V57 == Round(V56, K(56), W56) && V58 == Round(V57, K(57), W57) && V59 == Round(V58, K(58), W58)
    ensures V60 == Round(V59, K(59), W59) && V61 == Round(V60, K(60), W60) && V62 == Round(V61, K(61), W61)
    ensures V63 == Round(V62, K(62), W62) && V64 == Round(V63, K(63), W63)
  {
    Rotations();
    hide Rotr;
  }

  lemma NextRound(t: nat)
    requires t < ROUNDS
    ensures After(V0, M(), t + 1) == Round(After(V0, M(), t), K(t), Word(t))
  {
    WordIs(t);
  }

  lemma NoRound()
    ensures After(V0, M(), 0) == V0
  {
  }

  lemma After1()
    ensures After(V0, M(), 16) == V16
  {
    hide After, Word, M, K, Round;
    NoRound(); Table0(); Rounds1(); Rounds2();
    NextRound(0); NextRound(1); NextRound(2); NextRound(3); NextRound(4); NextRound(5); NextRound(6); NextRound(7);
    NextRound(8); NextRound(9); NextRound(10); NextRound(11); NextRound(12); NextRound(13); NextRound(14);
    NextRound(15);
  }

  lemma After2()
    ensures After(V0, M(), 32) == V32
  {
    hide After, Word, M, K, Round;
    After1(); Table1(); Rounds3(); Rounds4();
    NextRound(16); NextRound(17); NextRound(18); NextRound(19); NextRound(20); NextRound(21); NextRound(22);
    NextRound(23); NextRound(24); NextRound(25); NextRound(26); NextRound(27); NextRound(28); NextRound(29);
    NextRound(30); NextRound(31);
  }

  lemma After3()
    ensures After(V0, M(), 48) == V48
  {
    hide After, Word, M, K, Round;
    After2(); Table2(); Rounds5(); Rounds6();
    NextRound(32); NextRound(33); NextRound(34); NextRound(35); NextRound(36); NextRound(37); NextRound(38);
    NextRound(39); NextRound(40); NextRound(41); NextRound(42); NextRound(43); NextRound(44); NextRound(45);
    NextRound(46); NextRound(47);
  }

  lemma After4()
    ensures After(V0, M(), 64) == V64
  {
    hide After, Word, M, K, Round;
    After3(); Table3(); Rounds7(); Rounds8();
    NextRound(48); NextRound(49); NextRound(50); NextRound(51); NextRound(52); NextRound(53); NextRound(54);
    NextRound(55); NextRound(56); NextRound(57); NextRound(58); NextRound(59); NextRound(60); NextRound(61);
    NextRound(62); NextRound(63);
  }

  // ----- the digest -----

  lemma BlockIs()
    ensures |Pad(SHA256, ABC)| == 64 && Block(Pad(SHA256, ABC)) == M()
  {
    PaddedIs(SHA256);
    var p := Pad(SHA256, ABC);
    hide Pad;
    forall i | 0 <= i < 16
      ensures Word32(p, i) == M()[i]
    {
      if 0 < i < 15 { assert M()[i] == 0; }
    }
    assert Block(p) == M();
  }

  lemma StartIs()
    ensures InitialValue(SHA256) == V256(V0)
  {
  }

  lemma HashIs()
    ensures Hash(SHA256, Pad(SHA256, ABC)) == V256(Compress(V0, M()))
  {
    hide Compress, M, Block, InitialValue, Pad, Hash;
    BlockIs();
    StartIs();
    OneBlock(SHA256, Pad(SHA256, ABC));
  }

  lemma CompressedIs()
    ensures Compress(V0, M()) ==
      Vars(0xba7816bf, 0x8f01cfea, 0x414140de, 0x5dae2223, 0xb00361a3, 0x96177a9c, 0xb410ff61, 0xf20015ad)
  {
    After4();
    hide After, M;
  }

  lemma BytesAre()
    ensures Bytes32(0xba7816bf) == [0xba, 0x78, 0x16, 0xbf]
    ensures Bytes32(0x8f01cfea) == [0x8f, 0x01, 0xcf, 0xea]
    ensures Bytes32(0x414140de) == [0x41, 0x41, 0x40, 0xde]
    ensures Bytes32(0x5dae2223) == [0x5d, 0xae, 0x22, 0x23]
    ensures Bytes32(0xb00361a3) == [0xb0, 0x03, 0x61, 0xa3]
    ensures Bytes32(0x96177a9c) == [0x96, 0x17, 0x7a, 0x9c]
    ensures Bytes32(0xb410ff61) == [0xb4, 0x10, 0xff, 0x61]
    ensures Bytes32(0xf20015ad) == [0xf2, 0x00, 0x15, 0xad]
  {
  }

  /** The digest of "abc". */
  lemma DigestIs()
    ensures Digest(SHA256, ABC) ==
      [0xba, 0x78, 0x16, 0xbf] + [0x8f, 0x01, 0xcf, 0xea] + [0x41, 0x41, 0x40, 0xde] + [0x5d, 0xae, 0x22, 0x23] +
      [0xb0, 0x03, 0x61, 0xa3] + [0x96, 0x17, 0x7a, 0x9c] + [0xb4, 0x10, 0xff, 0x61] + [0xf2, 0x00, 0x15, 0xad]
  {
    HashIs();
    CompressedIs();
    BytesAre();
    hide Hash, Compress, Bytes32, Pad;
  }
}
