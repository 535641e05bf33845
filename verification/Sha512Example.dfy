/**
 * SHA-512 of the three bytes "abc", the one-block example for FIPS 180-4: the message schedule and the working
 * variables after every round, each checked against the definition, and the digest.
 */
module Sha512Example {
  import opened ShaBytes
  import opened ShaSpec
  import opened ShaExample
  import opened Sha512

  // ----- the message schedule -----

  const W0: bv64 := 0x6162638000000000  const W1: bv64 := 0x0000000000000000  const W2: bv64 := 0x0000000000000000
  const W3: bv64 := 0x0000000000000000  const W4: bv64 := 0x0000000000000000  const W5: bv64 := 0x0000000000000000
  const W6: bv64 := 0x0000000000000000  const W7: bv64 := 0x0000000000000000  const W8: bv64 := 0x0000000000000000
  const W9: bv64 := 0x0000000000000000  const W10: bv64 := 0x0000000000000000  const W11: bv64 := 0x0000000000000000
  const W12: bv64 := 0x0000000000000000  const W13: bv64 := 0x0000000000000000  const W14: bv64 := 0x0000000000000000
  const W15: bv64 := 0x0000000000000018  const W16: bv64 := 0x6162638000000000  const W17: bv64 := 0x00030000000000c0
  const W18: bv64 := 0x0a9699a24c700003  const W19: bv64 := 0x00000c0060000603  const W20: bv64 := 0x549ef62639858996
  const W21: bv64 := 0x00c0003300003c00  const W22: bv64 := 0x1497007a8a0e9dbc  const W23: bv64 := 0x62e56500cc0780f0
  const W24: bv64 := 0x7760dd475a538797  const W25: bv64 := 0xf1554b711c1c0003  const W26: bv64 := 0xca2993a4345d9ff2
  const W27: bv64 := 0x5e0e66b5c783dd32  const W28: bv64 := 0xe25a625d00494b62  const W29: bv64 := 0x9f44486fb1e4fbd2
  const W30: bv64 := 0xb31b8c2b06085f2f  const W31: bv64 := 0x0e987660934142f6  const W32: bv64 := 0xa4af2cfd09fbb924
  const W33: bv64 := 0xad289e2e0bd53186  const W34: bv64 := 0x3c74563aa2f9673e  const W35: bv64 := 0x6ccdcd14cc14b53f
  const W36: bv64 := 0xc3f925b337f22bde  const W37: bv64 := 0x5bcc77a75ad95b54  const W38: bv64 := 0x3ec2257adca09a52
  const W39: bv64 := 0x28246960001fc5eb  const W40: bv64 := 0x04e33a75ce2be88a  const W41: bv64 := 0x7d5314b3c359e0e7
  const W42: bv64 := 0xaef7a285ff251266  const W43: bv64 := 0x0b8472581deea04f  const W44: bv64 := 0xb174e26eddc7b033
  const W45: bv64 := 0x5d63bae58ddd88de  const W46: bv64 := 0x4c044007b744ccbb  const W47: bv64 := 0xe6a9aa4d74dc7d43
  const W48: bv64 := 0xebeaf1237248019c  const W49: bv64 := 0x361e80b2d00f3193  const W50: bv64 := 0x2e9839125df3b175
  const W51: bv64 := 0x3319629293ad5363  const W52: bv64 := 0x9cbc5d89ac1b89d5  const W53: bv64 := 0x275e23ffeeca50b7
  const W54: bv64 := 0x3b80d680bf69ef58  const W55: bv64 := 0x0d0696933945a125  const W56: bv64 := 0x7533eabcb786ff00
  const W57: bv64 := 0xb89826cee6fbf0e5  const W58: bv64 := 0x249b4fbcad623e9f  const W59: bv64 := 0x4aea9df2b02d6f1e
  const W60: bv64 := 0x2cc57475a55e8d8f  const W61: bv64 := 0xb2574ae938d8be89  const W62: bv64 := 0xc1b35a57b16d6aea
  const W63: bv64 := 0xcc4918b5949206bb  const W64: bv64 := 0x5099c3add79f90ec  const W65: bv64 := 0x5ea81d78e7660bf1
  const W66: bv64 := 0xebee6267405ac2a9  const W67: bv64 := 0xb01f21926108a4ab  const W68: bv64 := 0x786433dd2fe65556
  const W69: bv64 := 0xc54a6eaa24a0552c  const W70: bv64 := 0xb3c8f1530bdbaa9e  const W71: bv64 := 0xbb8abfe56f469338
  const W72: bv64 := 0xf63d4265cc1c5a78  const W73: bv64 := 0xbe8355ea73129afb  const W74: bv64 := 0x49e2db8ebdcfbeb5
  const W75: bv64 := 0x82269d4a883a3d99  const W76: bv64 := 0xfdf53df3011f362b  const W77: bv64 := 0x464af5671d71c12e
  const W78: bv64 := 0xe449b68198ec611c  const W79: bv64 := 0x92aeeed1a7bcf7d2

  /** The padded message as one block. */
  function M(): (m: seq<bv64>)
    ensures |m| == 16
  {
    [W0, W1, W2, W3, W4, W5, W6, W7, W8, W9, W10, W11, W12, W13, W14, W15]
  }

  /** The schedule as a table. */
  const ROWS: seq<seq<bv64>> := [
    [W0, W1, W2, W3, W4, W5, W6, W7],
    [W8, W9, W10, W11, W12, W13, W14, W15],
    [W16, W17, W18, W19, W20, W21, W22, W23],
    [W24, W25, W26, W27, W28, W29, W30, W31],
    [W32, W33, W34, W35, W36, W37, W38, W39],
    [W40, W41, W42, W43, W44, W45, W46, W47],
    [W48, W49, W50, W51, W52, W53, W54, W55],
    [W56, W57, W58, W59, W60, W61, W62, W63],
    [W64, W65, W66, W67, W68, W69, W70, W71],
    [W72, W73, W74, W75, W76, W77, W78, W79]]

  function Word(t: nat): bv64
    requires t < ROUNDS
  {
    ROWS[t / 8][t % 8]
  }

  /** A word of the schedule from four before it. */
  function Next(w2: bv64, w7: bv64, w15: bv64, w16: bv64): bv64 {
    Sum4(SmallSigma1(w2), w7, SmallSigma0(w15), w16)
  }

  predicate Follows(t: nat)
    requires 16 <= t < ROUNDS
  {
    Word(t) == Next(Word(t - 2), Word(t - 7), Word(t - 15), Word(t - 16))
  }

  /** The rotations with shifts by literals. */
  lemma Rotated(x: bv64)
    ensures Rotr(x, 1) == (x >> 1) | (x << 63) && Rotr(x, 8) == (x >> 8) | (x << 56)
    ensures Rotr(x, 14) == (x >> 14) | (x << 50) && Rotr(x, 18) == (x >> 18) | (x << 46)
    ensures Rotr(x, 19) == (x >> 19) | (x << 45) && Rotr(x, 28) == (x >> 28) | (x << 36)
    ensures Rotr(x, 34) == (x >> 34) | (x << 30) && Rotr(x, 39) == (x >> 39) | (x << 25)
    ensures Rotr(x, 41) == (x >> 41) | (x << 23) && Rotr(x, 61) == (x >> 61) | (x << 3)
  {
  }

  lemma Rotations()
    ensures forall x: bv64 :: Rotr(x, 1) == (x >> 1) | (x << 63) && Rotr(x, 8) == (x >> 8) | (x << 56)
    ensures forall x: bv64 :: Rotr(x, 14) == (x >> 14) | (x << 50) && Rotr(x, 18) == (x >> 18) | (x << 46)
    ensures forall x: bv64 :: Rotr(x, 19) == (x >> 19) | (x << 45) && Rotr(x, 28) == (x >> 28) | (x << 36)
    ensures forall x: bv64 :: Rotr(x, 34) == (x >> 34) | (x << 30) && Rotr(x, 39) == (x >> 39) | (x << 25)
    ensures forall x: bv64 :: Rotr(x, 41) == (x >> 41) | (x << 23) && Rotr(x, 61) == (x >> 61) | (x << 3)
  {
    hide Rotr;
    forall x: bv64
      ensures Rotr(x, 1) == (x >> 1) | (x << 63) && Rotr(x, 8) == (x >> 8) | (x << 56)
      ensures Rotr(x, 14) == (x >> 14) | (x << 50) && Rotr(x, 18) == (x >> 18) | (x << 46)
      ensures Rotr(x, 19) == (x >> 19) | (x << 45) && Rotr(x, 28) == (x >> 28) | (x << 36)
      ensures Rotr(x, 34) == (x >> 34) | (x << 30) && Rotr(x, 39) == (x >> 39) | (x << 25)
      ensures Rotr(x, 41) == (x >> 41) | (x << 23) && Rotr(x, 61) == (x >> 61) | (x << 3)
    {
      Rotated(x);
    }
  }

  lemma Table0()
    ensures Word(0) == W0 && Word(1) == W1 && Word(2) == W2 && Word(3) == W3 && Word(4) == W4 && Word(5) == W5
    ensures Word(6) == W6 && Word(7) == W7 && Word(8) == W8 && Word(9) == W9 && Word(10) == W10 && Word(11) == W11
    ensures Word(12) == W12 && Word(13) == W13 && Word(14) == W14 && Word(15) == W15
  {
  }

  lemma Table1()
    ensures Word(16) == W16 && Word(17) == W17 && Word(18) == W18 && Word(19) == W19 && Word(20) == W20
    ensures Word(21) == W21 && Word(22) == W22 && Word(23) == W23 && Word(24) == W24 && Word(25) == W25
    ensures Word(26) == W26 && Word(27) == W27 && Word(28) == W28 && Word(29) == W29 && Word(30) == W30
    ensures Word(31) == W31
  {
  }

  lemma Table2()
    ensures Word(32) == W32 && Word(33) == W33 && Word(34) == W34 && Word(35) == W35 && Word(36) == W36
    ensures Word(37) == W37 && Word(38) == W38 && Word(39) == W39 && Word(40) == W40 && Word(41) == W41
    ensures Word(42) == W42 && Word(43) == W43 && Word(44) == W44 && Word(45) == W45 && Word(46) == W46
    ensures Word(47) == W47
  {
  }

  lemma Table3()
    ensures Word(48) == W48 && Word(49) == W49 && Word(50) == W50 && Word(51) == W51 && Word(52) == W52
    ensures Word(53) == W53 && Word(54) == W54 && Word(55) == W55 && Word(56) == W56 && Word(57) == W57
    ensures Word(58) == W58 && Word(59) == W59 && Word(60) == W60 && Word(61) == W61 && Word(62) == W62
    ensures Word(63) == W63
  {
  }

  lemma Table4()
    ensures Word(64) == W64 && Word(65) == W65 && Word(66) == W66 && Word(67) == W67 && Word(68) == W68
    ensures Word(69) == W69 && Word(70) == W70 && Word(71) == W71 && Word(72) == W72 && Word(73) == W73
    ensures Word(74) == W74 && Word(75) == W75 && Word(76) == W76 && Word(77) == W77 && Word(78) == W78
    ensures Word(79) == W79
  {
  }

  lemma Schedule1()
    ensures W16 == Next(W14, W9, W1, W0) && W17 == Next(W15, W10, W2, W1) && W18 == Next(W16, W11, W3, W2)
    ensures W19 == Next(W17, W12, W4, W3) && W20 == Next(W18, W13, W5, W4) && W21 == Next(W19, W14, W6, W5)
    ensures W22 == Next(W20, W15, W7, W6) && W23 == Next(W21, W16, W8, W7) && W24 == Next(W22, W17, W9, W8)
    ensures W25 == Next(W23, W18, W10, W9) && W26 == Next(W24, W19, W11, W10) && W27 == Next(W25, W20, W12, W11)
    ensures W28 == Next(W26, W21, W13, W12) && W29 == Next(W27, W22, W14, W13) && W30 == Next(W28, W23, W15, W14)
    ensures W31 == Next(W29, W24, W16, W15)
  {
    Rotations();
    hide Rotr;
  }

  lemma Follow1()
    ensures Follows(16) && Follows(17) && Follows(18) && Follows(19) && Follows(20) && Follows(21) && Follows(22)
    ensures Follows(23) && Follows(24) && Follows(25) && Follows(26) && Follows(27) && Follows(28) && Follows(29)
    ensures Follows(30) && Follows(31)
  {
    Table0(); Table1(); Schedule1();
    hide Word, Next;
  }

  lemma Schedule2()
    ensures W32 == Next(W30, W25, W17, W16) && W33 == Next(W31, W26, W18, W17) && W34 == Next(W32, W27, W19, W18)
    ensures W35 == Next(W33, W28, W20, W19) && W36 == Next(W34, W29, W21, W20) && W37 == Next(W35, W30, W22, W21)
    ensures W38 == Next(W36, W31, W23, W22) && W39 == Next(W37, W32, W24, W23) && W40 == Next(W38, W33, W25, W24)
    ensures W41 == Next(W39, W34, W26, W25) && W42 == Next(W40, W35, W27, W26) && W43 == Next(W41, W36, W28, W27)
    ensures W44 == Next(W42, W37, W29, W28) && W45 == Next(W43, W38, W30, W29) && W46 == Next(W44, W39, W31, W30)
    ensures W47 == Next(W45, W40, W32, W31)
  {
    Rotations();
    hide Rotr;
  }

  lemma Follow2()
    ensures Follows(32) && Follows(33) && Follows(34) && Follows(35) && Follows(36) && Follows(37) && Follows(38)
    ensures Follows(39) && Follows(40) && Follows(41) && Follows(42) && Follows(43) && Follows(44) && Follows(45)
    ensures Follows(46) && Follows(47)
  {
    Table1(); Table2(); Schedule2();
    hide Word, Next;
  }

  lemma Schedule3()
    ensures W48 == Next(W46, W41, W33, W32) && W49 == Next(W47, W42, W34, W33) && W50 == Next(W48, W43, W35, W34)
    ensures W51 == Next(W49, W44, W36, W35) && W52 == Next(W50, W45, W37, W36) && W53 == Next(W51, W46, W38, W37)
    ensures W54 == Next(W52, W47, W39, W38) && W55 == Next(W53, W48, W40, W39) && W56 == Next(W54, W49, W41, W40)
    ensures W57 == Next(W55, W50, W42, W41) && W58 == Next(W56, W51, W43, W42) && W59 == Next(W57, W52, W44, W43)
    ensures W60 == Next(W58, W53, W45, W44) && W61 == Next(W59, W54, W46, W45) && W62 == Next(W60, W55, W47, W46)
    ensures W63 == Next(W61, W56, W48, W47)
  {
    Rotations();
    hide Rotr;
  }

  lemma Follow3()
    ensures Follows(48) && Follows(49) && Follows(50) && Follows(51) && Follows(52) && Follows(53) && Follows(54)
    ensures Follows(55) && Follows(56) && Follows(57) && Follows(58) && Follows(59) && Follows(60) && Follows(61)
    ensures Follows(62) && Follows(63)
  {
    Table2(); Table3(); Schedule3();
    hide Word, Next;
  }

  lemma Schedule4()
    ensures W64 == Next(W62, W57, W49, W48) && W65 == Next(W63, W58, W50, W49) && W66 == Next(W64, W59, W51, W50)
    ensures W67 == Next(W65, W60, W52, W51) && W68 == Next(W66, W61, W53, W52) && W69 == Next(W67, W62, W54, W53)
    ensures W70 == Next(W68, W63, W55, W54) && W71 == Next(W69, W64, W56, W55) && W72 == Next(W70, W65, W57, W56)
    ensures W73 == Next(W71, W66, W58, W57) && W74 == Next(W72, W67, W59, W58) && W75 == Next(W73, W68, W60, W59)
    ensures W76 == Next(W74, W69, W61, W60) && W77 == Next(W75, W70, W62, W61) && W78 == Next(W76, W71, W63, W62)
    ensures W79 == Next(W77, W72, W64, W63)
  {
    Rotations();
    hide Rotr;
  }

  lemma Follow4()
    ensures Follows(64) && Follows(65) && Follows(66) && Follows(67) && Follows(68) && Follows(69) && Follows(70)
    ensures Follows(71) && Follows(72) && Follows(73) && Follows(74) && Follows(75) && Follows(76) && Follows(77)
    ensures Follows(78) && Follows(79)
  {
    Table3(); Table4(); Schedule4();
    hide Word, Next;
  }

  /** The table is the schedule of the message. */
  lemma {:induction false} WordIs(t: nat)
    requires t < ROUNDS
    ensures W(M(), t) == Word(t)
    decreases t
  {
    hide Word, M;
    if t < 16 {
      FirstWord(t);
    } else {
      WordIs(t - 2); WordIs(t - 7); WordIs(t - 15); WordIs(t - 16);
      AnyWord(t);
    }
  }

  lemma FirstWord(t: nat)
    requires t < 16
    ensures M()[t] == Word(t)
  {
    Table0();
    hide Word;
  }

  lemma AnyWord(t: nat)
    requires 16 <= t < ROUNDS
    ensures Follows(t)
  {
    hide Follows;
    Follow1(); Follow2(); Follow3(); Follow4();
  }

  // ----- the working variables -----

  const V0 := Vars(0x6a09e667f3bcc908, 0xbb67ae8584caa73b, 0x3c6ef372fe94f82b, 0xa54ff53a5f1d36f1,
                  0x510e527fade682d1, 0x9b05688c2b3e6c1f, 0x1f83d9abfb41bd6b, 0x5be0cd19137e2179)
  const V1 := Vars(0xf6afceb8bcfcddf5, 0x6a09e667f3bcc908, 0xbb67ae8584caa73b, 0x3c6ef372fe94f82b,
                  0x58cb02347ab51f91, 0x510e527fade682d1, 0x9b05688c2b3e6c1f, 0x1f83d9abfb41bd6b)
  const V2 := Vars(0x1320f8c9fb872cc0, 0xf6afceb8bcfcddf5, 0x6a09e667f3bcc908, 0xbb67ae8584caa73b,
                  0xc3d4ebfd48650ffa, 0x58cb02347ab51f91, 0x510e527fade682d1, 0x9b05688c2b3e6c1f)
  const V3 := Vars(0xebcffc07203d91f3, 0x1320f8c9fb872cc0, 0xf6afceb8bcfcddf5, 0x6a09e667f3bcc908,
                  0xdfa9b239f2697812, 0xc3d4ebfd48650ffa, 0x58cb02347ab51f91, 0x510e527fade682d1)
  const V4 := Vars(0x5a83cb3e80050e82, 0xebcffc07203d91f3, 0x1320f8c9fb872cc0, 0xf6afceb8bcfcddf5,
                  0x0b47b4bb1928990e, 0xdfa9b239f2697812, 0xc3d4ebfd48650ffa, 0x58cb02347ab51f91)
  const V5 := Vars(0xb680953951604860, 0x5a83cb3e80050e82, 0xebcffc07203d91f3, 0x1320f8c9fb872cc0,
                  0x745aca4a342ed2e2, 0x0b47b4bb1928990e, 0xdfa9b239f2697812, 0xc3d4ebfd48650ffa)
  const V6 := Vars(0xaf573b02403e89cd, 0xb680953951604860, 0x5a83cb3e80050e82, 0xebcffc07203d91f3,
                  0x96f60209b6dc35ba, 0x745aca4a342ed2e2, 0x0b47b4bb1928990e, 0xdfa9b239f2697812)
  const V7 := Vars(0xc4875b0c7abc076b, 0xaf573b02403e89cd, 0xb680953951604860, 0x5a83cb3e80050e82,
                  0x5a6c781f54dcc00c, 0x96f60209b6dc35ba, 0x745aca4a342ed2e2, 0x0b47b4bb1928990e)
  const V8 := Vars(0x8093d195e0054fa3, 0xc4875b0c7abc076b, 0xaf573b02403e89cd, 0xb680953951604860,
                  0x86f67263a0f0ec0a, 0x5a6c781f54dcc00c, 0x96f60209b6dc35ba, 0x745aca4a342ed2e2)
  const V9 := Vars(0xf1eca5544cb89225, 0x8093d195e0054fa3, 0xc4875b0c7abc076b, 0xaf573b02403e89cd,
                  0xd0403c398fc40002, 0x86f67263a0f0ec0a, 0x5a6c781f54dcc00c, 0x96f60209b6dc35ba)
  const V10 := Vars(0x81782d4a5db48f03, 0xf1eca5544cb89225, 0x8093d195e0054fa3, 0xc4875b0c7abc076b,
                  0x00091f460be46c52, 0xd0403c398fc40002, 0x86f67263a0f0ec0a, 0x5a6c781f54dcc00c)
  const V11 := Vars(0x69854c4aa0f25b59, 0x81782d4a5db48f03, 0xf1eca5544cb89225, 0x8093d195e0054fa3,
                  0xd375471bde1ba3f4, 0x00091f460be46c52, 0xd0403c398fc40002, 0x86f67263a0f0ec0a)
  const V12 := Vars(0xdb0a9963f80c2eaa, 0x69854c4aa0f25b59, 0x81782d4a5db48f03, 0xf1eca5544cb89225,
                  0x475975b91a7a462c, 0xd375471bde1ba3f4, 0x00091f460be46c52, 0xd0403c398fc40002)
  const V13 := Vars(0x5e41214388186c14, 0xdb0a9963f80c2eaa, 0x69854c4aa0f25b59, 0x81782d4a5db48f03,
                  0xcdf3bff2883fc9d9, 0x475975b91a7a462c, 0xd375471bde1ba3f4, 0x00091f460be46c52)
  const V14 := Vars(0x44249631255d2ca0, 0x5e41214388186c14, 0xdb0a9963f80c2eaa, 0x69854c4aa0f25b59,
                  0x860acf9effba6f61, 0xcdf3bff2883fc9d9, 0x475975b91a7a462c, 0xd375471bde1ba3f4)
  const V15 := Vars(0xfa967eed85a08028, 0x44249631255d2ca0, 0x5e41214388186c14, 0xdb0a9963f80c2eaa,
                  0x874bfe5f6aae9f2f, 0x860acf9effba6f61, 0xcdf3bff2883fc9d9, 0x475975b91a7a462c)
  const V16 := Vars(0x0ae07c86b1181c75, 0xfa967eed85a08028, 0x44249631255d2ca0, 0x5e41214388186c14,
                  0xa77b7c035dd4c161, 0x874bfe5f6aae9f2f, 0x860acf9effba6f61, 0xcdf3bff2883fc9d9)
  const V17 := Vars(0xcaf81a425d800537, 0x0ae07c86b1181c75, 0xfa967eed85a08028, 0x44249631255d2ca0,
                  0x2deecc6b39d64d78, 0xa77b7c035dd4c161, 0x874bfe5f6aae9f2f, 0x860acf9effba6f61)
  const V18 := Vars(0x4725be249ad19e6b, 0xcaf81a425d800537, 0x0ae07c86b1181c75, 0xfa967eed85a08028,
                  0xf47e8353f8047455, 0x2deecc6b39d64d78, 0xa77b7c035dd4c161, 0x874bfe5f6aae9f2f)
  const V19 := Vars(0x3c4b4104168e3edb, 0x4725be249ad19e6b, 0xcaf81a425d800537, 0x0ae07c86b1181c75,
                  0x29695fd88d81dbd0, 0xf47e8353f8047455, 0x2deecc6b39d64d78, 0xa77b7c035dd4c161)
  const V20 := Vars(0x9a3fb4d38ab6cf06, 0x3c4b4104168e3edb, 0x4725be249ad19e6b, 0xcaf81a425d800537,
                  0xf14998dd5f70767e, 0x29695fd88d81dbd0, 0xf47e8353f8047455, 0x2deecc6b39d64d78)
  const V21 := Vars(0x8dc5ae65569d3855, 0x9a3fb4d38ab6cf06, 0x3c4b4104168e3edb, 0x4725be249ad19e6b,
                  0x4bb9e66d1145bfdc, 0xf14998dd5f70767e, 0x29695fd88d81dbd0, 0xf47e8353f8047455)
  const V22 := Vars(0xda34d6673d452dcf, 0x8dc5ae65569d3855, 0x9a3fb4d38ab6cf06, 0x3c4b4104168e3edb,
                  0x8e30ff09ad488753, 0x4bb9e66d1145bfdc, 0xf14998dd5f70767e, 0x29695fd88d81dbd0)
  const V23 := Vars(0x3e2644567b709a78, 0xda34d6673d452dcf, 0x8dc5ae65569d3855, 0x9a3fb4d38ab6cf06,
                  0x0ac2b11da8f571c6, 0x8e30ff09ad488753, 0x4bb9e66d1145bfdc, 0xf14998dd5f70767e)
  const V24 := Vars(0x4f6877b58fe55484, 0x3e2644567b709a78, 0xda34d6673d452dcf, 0x8dc5ae65569d3855,
                  0xc66005f87db55233, 0x0ac2b11da8f571c6, 0x8e30ff09ad488753, 0x4bb9e66d1145bfdc)
  const V25 := Vars(0x9aff71163fa3a940, 0x4f6877b58fe55484, 0x3e2644567b709a78, 0xda34d6673d452dcf,
                  0xd3ecf13769180e6f, 0xc66005f87db55233, 0x0ac2b11da8f571c6, 0x8e30ff09ad488753)
  const V26 := Vars(0x0bc5f791f8e6816b, 0x9aff71163fa3a940, 0x4f6877b58fe55484, 0x3e2644567b709a78,
                  0x6ddf1fd7edcce336, 0xd3ecf13769180e6f, 0xc66005f87db55233, 0x0ac2b11da8f571c6)
  const V27 := Vars(0x884c3bc27bc4f941, 0x0bc5f791f8e6816b, 0x9aff71163fa3a940, 0x4f6877b58fe55484,
                  0xe6e48c9a8e948365, 0x6ddf1fd7edcce336, 0xd3ecf13769180e6f, 0xc66005f87db55233)
  const V28 := Vars(0xeab4a9e5771b8d09, 0x884c3bc27bc4f941, 0x0bc5f791f8e6816b, 0x9aff71163fa3a940,
                  0x09068a4e255a0dac, 0xe6e48c9a8e948365, 0x6ddf1fd7edcce336, 0xd3ecf13769180e6f)
  const V29 := Vars(0xe62349090f47d30a, 0xeab4a9e5771b8d09, 0x884c3bc27bc4f941, 0x0bc5f791f8e6816b,
                  0x0fcdf99710f21584, 0x09068a4e255a0dac, 0xe6e48c9a8e948365, 0x6ddf1fd7edcce336)
  const V30 := Vars(0x74bf40f869094c63, 0xe62349090f47d30a, 0xeab4a9e5771b8d09, 0x884c3bc27bc4f941,
                  0xf0aec2fe1437f085, 0x0fcdf99710f21584, 0x09068a4e255a0dac, 0xe6e48c9a8e948365)
  const V31 := Vars(0x4c4fbbb75f1873a6, 0x74bf40f869094c63, 0xe62349090f47d30a, 0xeab4a9e5771b8d09,
                  0x73e025d91b9efea3, 0xf0aec2fe1437f085, 0x0fcdf99710f21584, 0x09068a4e255a0dac)
  const V32 := Vars(0xff4d3f1f0d46a736, 0x4c4fbbb75f1873a6, 0x74bf40f869094c63, 0xe62349090f47d30a,
                  0x3cd388e119e8162e, 0x73e025d91b9efea3, 0xf0aec2fe1437f085, 0x0fcdf99710f21584)
  const V33 := Vars(0xa0509015ca08c8d4, 0xff4d3f1f0d46a736, 0x4c4fbbb75f1873a6, 0x74bf40f869094c63,
                  0xe1034573654a106f, 0x3cd388e119e8162e, 0x73e025d91b9efea3, 0xf0aec2fe1437f085)
  const V34 := Vars(0x60d4e6995ed91fe6, 0xa0509015ca08c8d4, 0xff4d3f1f0d46a736, 0x4c4fbbb75f1873a6,
                  0xefabbd8bf47c041a, 0xe1034573654a106f, 0x3cd388e119e8162e, 0x73e025d91b9efea3)
  const V35 := Vars(0x2c59ec7743632621, 0x60d4e6995ed91fe6, 0xa0509015ca08c8d4, 0xff4d3f1f0d46a736,
                  0x0fbae670fa780fd3, 0xefabbd8bf47c041a, 0xe1034573654a106f, 0x3cd388e119e8162e)
  const V36 := Vars(0x1a081afc59fdbc2c, 0x2c59ec7743632621, 0x60d4e6995ed91fe6, 0xa0509015ca08c8d4,
                  0xf098082f502b44cd, 0x0fbae670fa780fd3, 0xefabbd8bf47c041a, 0xe1034573654a106f)
  const V37 := Vars(0x88df85b0bbe77514, 0x1a081afc59fdbc2c, 0x2c59ec7743632621, 0x60d4e6995ed91fe6,
                  0x8fbfd0162bbf4675, 0xf098082f502b44cd, 0x0fbae670fa780fd3, 0xefabbd8bf47c041a)
  const V38 := Vars(0x002bb8e4cd989567, 0x88df85b0bbe77514, 0x1a081afc59fdbc2c, 0x2c59ec7743632621,
                  0x66adcfa249ac7bbd, 0x8fbfd0162bbf4675, 0xf098082f502b44cd, 0x0fbae670fa780fd3)
  const V39 := Vars(0xb3bb8542b3376de5, 0x002bb8e4cd989567, 0x88df85b0bbe77514, 0x1a081afc59fdbc2c,
                  0xb49596c20feba7de, 0x66adcfa249ac7bbd, 0x8fbfd0162bbf4675, 0xf098082f502b44cd)
  const V40 := Vars(0x8e01e125b855d225, 0xb3bb8542b3376de5, 0x002bb8e4cd989567, 0x88df85b0bbe77514,
                  0x0c710a47ba6a567b, 0xb49596c20feba7de, 0x66adcfa249ac7bbd, 0x8fbfd0162bbf4675)
  const V41 := Vars(0xb01521dd6a6be12c, 0x8e01e125b855d225, 0xb3bb8542b3376de5, 0x002bb8e4cd989567,
                  0x169008b3a4bb170b, 0x0c710a47ba6a567b, 0xb49596c20feba7de, 0x66adcfa249ac7bbd)
  const V42 := Vars(0xe96f89dd48cbd851, 0xb01521dd6a6be12c, 0x8e01e125b855d225, 0xb3bb8542b3376de5,
                  0xf0996439e7b50cb1, 0x169008b3a4bb170b, 0x0c710a47ba6a567b, 0xb49596c20feba7de)
  const V43 := Vars(0xbc05ba8de5d3c480, 0xe96f89dd48cbd851, 0xb01521dd6a6be12c, 0x8e01e125b855d225,
                  0x639cb938e14dc190, 0xf0996439e7b50cb1, 0x169008b3a4bb170b, 0x0c710a47ba6a567b)
  const V44 := Vars(0x35d7e7f41defcbd5, 0xbc05ba8de5d3c480, 0xe96f89dd48cbd851, 0xb01521dd6a6be12c,
                  0xcc5100997f5710f2, 0x639cb938e14dc190, 0xf0996439e7b50cb1, 0x169008b3a4bb170b)
  const V45 := Vars(0xc47c9d5c7ea8a234, 0x35d7e7f41defcbd5, 0xbc05ba8de5d3c480, 0xe96f89dd48cbd851,
                  0x858d832ae0e8911c, 0xcc5100997f5710f2, 0x639cb938e14dc190, 0xf0996439e7b50cb1)
  const V46 := Vars(0x021fbadbabab5ac6, 0xc47c9d5c7ea8a234, 0x35d7e7f41defcbd5, 0xbc05ba8de5d3c480,
                  0xe95c2a57572d64d9, 0x858d832ae0e8911c, 0xcc5100997f5710f2, 0x639cb938e14dc190)
  const V47 := Vars(0xf61e672694de2d67, 0x021fbadbabab5ac6, 0xc47c9d5c7ea8a234, 0x35d7e7f41defcbd5,
                  0xc6bc35740d8daa9a, 0xe95c2a57572d64d9, 0x858d832ae0e8911c, 0xcc5100997f5710f2)
  const V48 := Vars(0x6b69fc1bb482feac, 0xf61e672694de2d67, 0x021fbadbabab5ac6, 0xc47c9d5c7ea8a234,
                  0x35264334c03ac8ad, 0xc6bc35740d8daa9a, 0xe95c2a57572d64d9, 0x858d832ae0e8911c)
  const V49 := Vars(0x571f323d96b3a047, 0x6b69fc1bb482feac, 0xf61e672694de2d67, 0x021fbadbabab5ac6,
                  0x271580ed6c3e5650, 0x35264334c03ac8ad, 0xc6bc35740d8daa9a, 0xe95c2a57572d64d9)
  const V50 := Vars(0xca9bd862c5050918, 0x571f323d96b3a047, 0x6b69fc1bb482feac, 0xf61e672694de2d67,
                  0xdfe091dab182e645, 0x271580ed6c3e5650, 0x35264334c03ac8ad, 0xc6bc35740d8daa9a)
  const V51 := Vars(0x813a43dd2c502043, 0xca9bd862c5050918, 0x571f323d96b3a047, 0x6b69fc1bb482feac,
                  0x07a0d8ef821c5e1a, 0xdfe091dab182e645, 0x271580ed6c3e5650, 0x35264334c03ac8ad)
  const V52 := Vars(0xd43f83727325dd77, 0x813a43dd2c502043, 0xca9bd862c5050918, 0x571f323d96b3a047,
                  0x483f80a82eaee23e, 0x07a0d8ef821c5e1a, 0xdfe091dab182e645, 0x271580ed6c3e5650)
  const V53 := Vars(0x03df11b32d42e203, 0xd43f83727325dd77, 0x813a43dd2c502043, 0xca9bd862c5050918,
                  0x504f94e40591cffa, 0x483f80a82eaee23e, 0x07a0d8ef821c5e1a, 0xdfe091dab182e645)
  const V54 := Vars(0xd63f68037ddf06aa, 0x03df11b32d42e203, 0xd43f83727325dd77, 0x813a43dd2c502043,
                  0xa6781efe1aa1ce02, 0x504f94e40591cffa, 0x483f80a82eaee23e, 0x07a0d8ef821c5e1a)
  const V55 := Vars(0xf650857b5babda4d, 0xd63f68037ddf06aa, 0x03df11b32d42e203, 0xd43f83727325dd77,
                  0x9ccfb31a86df0f86, 0xa6781efe1aa1ce02, 0x504f94e40591cffa, 0x483f80a82eaee23e)
  const V56 := Vars(0x63b460e42748817e, 0xf650857b5babda4d, 0xd63f68037ddf06aa, 0x03df11b32d42e203,
                  0xc6b4dd2a9931c509, 0x9ccfb31a86df0f86, 0xa6781efe1aa1ce02, 0x504f94e40591cffa)
  const V57 := Vars(0x7a52912943d52b05, 0x63b460e42748817e, 0xf650857b5babda4d, 0xd63f68037ddf06aa,
                  0xd2e89bbd91e00be0, 0xc6b4dd2a9931c509, 0x9ccfb31a86df0f86, 0xa6781efe1aa1ce02)
  const V58 := Vars(0x4b81c3aec976ea4b, 0x7a52912943d52b05, 0x63b460e42748817e, 0xf650857b5babda4d,
                  0x70505988124351ac, 0xd2e89bbd91e00be0, 0xc6b4dd2a9931c509, 0x9ccfb31a86df0f86)
  const V59 := Vars(0x581ecb3355dcd9b8, 0x4b81c3aec976ea4b, 0x7a52912943d52b05, 0x63b460e42748817e,
                  0x6a3c9b0f71c8bf36, 0x70505988124351ac, 0xd2e89bbd91e00be0, 0xc6b4dd2a9931c509)
  const V60 := Vars(0x2c074484ef1eac8c, 0x581ecb3355dcd9b8, 0x4b81c3aec976ea4b, 0x7a52912943d52b05,
                  0x4797cde4ed370692, 0x6a3c9b0f71c8bf36, 0x70505988124351ac, 0xd2e89bbd91e00be0)
  const V61 := Vars(0x3857dfd2fc37d3ba, 0x2c074484ef1eac8c, 0x581ecb3355dcd9b8, 0x4b81c3aec976ea4b,
                  0xa6af4e9c9f807e51, 0x4797cde4ed370692, 0x6a3c9b0f71c8bf36, 0x70505988124351ac)
  const V62 := Vars(0xcfcd928c5424e2b6, 0x3857dfd2fc37d3ba, 0x2c074484ef1eac8c, 0x581ecb3355dcd9b8,
                  0x09aee5bda1644de5, 0xa6af4e9c9f807e51, 0x4797cde4ed370692, 0x6a3c9b0f71c8bf36)
  const V63 := Vars(0xa81dedbb9f19e643, 0xcfcd928c5424e2b6, 0x3857dfd2fc37d3ba, 0x2c074484ef1eac8c,
                  0x84058865d60a05fa, 0x09aee5bda1644de5, 0xa6af4e9c9f807e51, 0x4797cde4ed370692)
  const V64 := Vars(0xab44e86276478d85, 0xa81dedbb9f19e643, 0xcfcd928c5424e2b6, 0x3857dfd2fc37d3ba,
                  0xcd881ee59ca6bc53, 0x84058865d60a05fa, 0x09aee5bda1644de5, 0xa6af4e9c9f807e51)
  const V65 := Vars(0x5a806d7e9821a501, 0xab44e86276478d85, 0xa81dedbb9f19e643, 0xcfcd928c5424e2b6,
                  0xaa84b086688a5c45, 0xcd881ee59ca6bc53, 0x84058865d60a05fa, 0x09aee5bda1644de5)
  const V66 := Vars(0xeeb9c21bb0102598, 0x5a806d7e9821a501, 0xab44e86276478d85, 0xa81dedbb9f19e643,
                  0x3b5fed0d6a1f96e1, 0xaa84b086688a5c45, 0xcd881ee59ca6bc53, 0x84058865d60a05fa)
  const V67 := Vars(0x46c4210ab2cc155d, 0xeeb9c21bb0102598, 0x5a806d7e9821a501, 0xab44e86276478d85,
                  0x29fab5a7bff53366, 0x3b5fed0d6a1f96e1, 0xaa84b086688a5c45, 0xcd881ee59ca6bc53)
  const V68 := Vars(0x54ba35cf56a0340e, 0x46c4210ab2cc155d, 0xeeb9c21bb0102598, 0x5a806d7e9821a501,
                  0x1c66f46d95690bcf, 0x29fab5a7bff53366, 0x3b5fed0d6a1f96e1, 0xaa84b086688a5c45)
  const V69 := Vars(0x181839d609c79748, 0x54ba35cf56a0340e, 0x46c4210ab2cc155d, 0xeeb9c21bb0102598,
                  0x0ada78ba2d446140, 0x1c66f46d95690bcf, 0x29fab5a7bff53366, 0x3b5fed0d6a1f96e1)
  const V70 := Vars(0xfb6aaae5d0b6a447, 0x181839d609c79748, 0x54ba35cf56a0340e, 0x46c4210ab2cc155d,
                  0xe3711cb6564d112d, 0x0ada78ba2d446140, 0x1c66f46d95690bcf, 0x29fab5a7bff53366)
  const V71 := Vars(0x7652c579cb60f19c, 0xfb6aaae5d0b6a447, 0x181839d609c79748, 0x54ba35cf56a0340e,
                  0xaff62c9665ff80fa, 0xe3711cb6564d112d, 0x0ada78ba2d446140, 0x1c66f46d95690bcf)
  const V72 := Vars(0xf15e9664b2803575, 0x7652c579cb60f19c, 0xfb6aaae5d0b6a447, 0x181839d609c79748,
                  0x947c3dfafee570ef, 0xaff62c9665ff80fa, 0xe3711cb6564d112d, 0x0ada78ba2d446140)
  const V73 := Vars(0x358406d165aee9ab, 0xf15e9664b2803575, 0x7652c579cb60f19c, 0xfb6aaae5d0b6a447,
                  0x8c7b5fd91a794ca0, 0x947c3dfafee570ef, 0xaff62c9665ff80fa, 0xe3711cb6564d112d)
  const V74 := Vars(0x20878dcd29cdfaf5, 0x358406d165aee9ab, 0xf15e9664b2803575, 0x7652c579cb60f19c,
                  0x054d3536539948d0, 0x8c7b5fd91a794ca0, 0x947c3dfafee570ef, 0xaff62c9665ff80fa)
  const V75 := Vars(0x33d48dabb5521de2, 0x20878dcd29cdfaf5, 0x358406d165aee9ab, 0xf15e9664b2803575,
                  0x2ba18245b50de4cf, 0x054d3536539948d0, 0x8c7b5fd91a794ca0, 0x947c3dfafee570ef)
  const V76 := Vars(0xc8960e6be864b916, 0x33d48dabb5521de2, 0x20878dcd29cdfaf5, 0x358406d165aee9ab,
                  0x995019a6ff3ba3de, 0x2ba18245b50de4cf, 0x054d3536539948d0, 0x8c7b5fd91a794ca0)
  const V77 := Vars(0x654ef9abec389ca9, 0xc8960e6be864b916, 0x33d48dabb5521de2, 0x20878dcd29cdfaf5,
                  0xceb9fc3691ce8326, 0x995019a6ff3ba3de, 0x2ba18245b50de4cf, 0x054d3536539948d0)
  const V78 := Vars(0xd67806db8b148677, 0x654ef9abec389ca9, 0xc8960e6be864b916, 0x33d48dabb5521de2,
                  0x25c96a7768fb2aa3, 0xceb9fc3691ce8326, 0x995019a6ff3ba3de, 0x2ba18245b50de4cf)
  const V79 := Vars(0x10d9c4c4295599f6, 0xd67806db8b148677, 0x654ef9abec389ca9, 0xc8960e6be864b916,
                  0x9bb4d39778c07f9e, 0x25c96a7768fb2aa3, 0xceb9fc3691ce8326, 0x995019a6ff3ba3de)
  const V80 := Vars(0x73a54f399fa4b1b2, 0x10d9c4c4295599f6, 0xd67806db8b148677, 0x654ef9abec389ca9,
                  0xd08446aa79693ed7, 0x9bb4d39778c07f9e, 0x25c96a7768fb2aa3, 0xceb9fc3691ce8326)

  lemma Rounds1()
    ensures V1 == Round(V0, K(0), W0) && V2 == Round(V1, K(1), W1) && V3 == Round(V2, K(2), W2)
    ensures V4 == Round(V3, K(3), W3)
  {
    Rotations();
    hide Rotr;
  }

  lemma Rounds2()
    ensures V5 == Round(V4, K(4), W4) && V6 == Round(V5, K(5), W5) && V7 == Round(V6, K(6), W6)
    ensures V8 == Round(V7, K(7), W7)
  {
    Rotations();
    hide Rotr;
  }

  lemma Rounds3()
    ensures V9 == Round(V8, K(8), W8) && V10 == Round(V9, K(9), W9) && V11 == Round(V10, K(10), W10)
    ensures V12 == Round(V11, K(11), W11)
  {
    Rotations();
    hide Rotr;
  }

  lemma Rounds4()
    ensures V13 == Round(V12, K(12), W12) && V14 == Round(V13, K(13), W13) && V15 == Round(V14, K(14), W14)
    ensures V16 == Round(V15, K(15), W15)
  {
    Rotations();
    hide Rotr;
  }

  lemma Rounds5()
    ensures V17 == Round(V16, K(16), W16) && V18 == Round(V17, K(17), W17) && V19 == Round(V18, K(18), W18)
    ensures V20 == Round(V19, K(19), W19)
  {
    Rotations();
    hide Rotr;
  }

  lemma Rounds6()
    ensures V21 == Round(V20, K(20), W20) && V22 == Round(V21, K(21), W21) && V23 == Round(V22, K(22), W22)
    ensures V24 == Round(V23, K(23), W23)
  {
    Rotations();
    hide Rotr;
  }

  lemma Rounds7()
    ensures V25 == Round(V24, K(24), W24) && V26 == Round(V25, K(25), W25) && V27 == Round(V26, K(26), W26)
    ensures V28 == Round(V27, K(27), W27)
  {
    Rotations();
    hide Rotr;
  }

  lemma Rounds8()
    ensures V29 == Round(V28, K(28), W28) && V30 == Round(V29, K(29), W29) && V31 == Round(V30, K(30), W30)
    ensures V32 == Round(V31, K(31), W31)
  {
    Rotations();
    hide Rotr;
  }

  lemma Rounds9()
    ensures V33 == Round(V32, K(32), W32) && V34 == Round(V33, K(33), W33) && V35 == Round(V34, K(34), W34)
    ensures V36 == Round(V35, K(35), W35)
  {
    Rotations();
    hide Rotr;
  }

  lemma Rounds10()
    ensures V37 == Round(V36, K(36), W36) && V38 == Round(V37, K(37), W37) && V39 == Round(V38, K(38), W38)
    ensures V40 == Round(V39, K(39), W39)
  {
    Rotations();
    hide Rotr;
  }

  lemma Rounds11()
    ensures V41 == Round(V40, K(40), W40) && V42 == Round(V41, K(41), W41) && V43 == Round(V42, K(42), W42)
    ensures V44 == Round(V43, K(43), W43)
  {
    Rotations();
    hide Rotr;
  }

  lemma Rounds12()
    ensures V45 == Round(V44, K(44), W44) && V46 == Round(V45, K(45), W45) && V47 == Round(V46, K(46), W46)
    ensures V48 == Round(V47, K(47), W47)
  {
    Rotations();
    hide Rotr;
  }

  lemma Rounds13()
    ensures V49 == Round(V48, K(48), W48) && V50 == Round(V49, K(49), W49) && V51 == Round(V50, K(50), W50)
    ensures V52 == Round(V51, K(51), W51)
  {
    Rotations();
    hide Rotr;
  }

  lemma Rounds14()
    ensures V53 == Round(V52, K(52), W52) && V54 == Round(V53, K(53), W53) && V55 == Round(V54, K(54), W54)
    ensures V56 == Round(V55, K(55), W55)
  {
    Rotations();
    hide Rotr;
  }

  lemma Rounds15()
    ensures V57 == Round(V56, K(56), W56) && V58 == Round(V57, K(57), W57) && V59 == Round(V58, K(58), W58)
    ensures V60 == Round(V59, K(59), W59)
  {
    Rotations();
    hide Rotr;
  }

  lemma Rounds16()
    ensures V61 == Round(V60, K(60), W60) && V62 == Round(V61, K(61), W61) && V63 == Round(V62, K(62), W62)
    ensures V64 == Round(V63, K(63), W63)
  {
    Rotations();
    hide Rotr;
  }

  lemma Rounds17()
    ensures V65 == Round(V64, K(64), W64) && V66 == Round(V65, K(65), W65) && V67 == Round(V66, K(66), W66)
    ensures V68 == Round(V67, K(67), W67)
  {
    Rotations();
    hide Rotr;
  }

  lemma Rounds18()
    ensures V69 == Round(V68, K(68), W68) && V70 == Round(V69, K(69), W69) && V71 == Round(V70, K(70), W70)
    ensures V72 == Round(V71, K(71), W71)
  {
    Rotations();
    hide Rotr;
  }

  lemma Rounds19()
    ensures V73 == Round(V72, K(72), W72) && V74 == Round(V73, K(73), W73) && V75 == Round(V74, K(74), W74)
    ensures V76 == Round(V75, K(75), W75)
  {
    Rotations();
    hide Rotr;
  }

  lemma Rounds20()
    ensures V77 == Round(V76, K(76), W76) && V78 == Round(V77, K(77), W77) && V79 == Round(V78, K(78), W78)
    ensures V80 == Round(V79, K(79), W79)
  {
    Rotations();
    hide Rotr;
  }

  lemma NextRound(t: nat)
    requires t < ROUNDS
    ensures After(V0, M(), t + 1) == Round(After(V0, M(), t), K(t), Word(t))
  {
    WordIs(t);
  }

  lemma NoRound()
    ensures After(V0, M(), 0) == V0
  {
  }

  lemma After1()
    ensures After(V0, M(), 16) == V16
  {
    hide After, Word, M, K, Round;
    NoRound(); Table0(); Rounds1(); Rounds2(); Rounds3(); Rounds4();
    NextRound(0); NextRound(1); NextRound(2); NextRound(3); NextRound(4); NextRound(5); NextRound(6); NextRound(7);
    NextRound(8); NextRound(9); NextRound(10); NextRound(11); NextRound(12); NextRound(13); NextRound(14);
    NextRound(15);
  }

  lemma After2()
    ensures After(V0, M(), 32) == V32
  {
    hide After, Word, M, K, Round;
    After1(); Table1(); Rounds5(); Rounds6(); Rounds7(); Rounds8();
    NextRound(16); NextRound(17); NextRound(18); NextRound(19); NextRound(20); NextRound(21); NextRound(22);
    NextRound(23); NextRound(24); NextRound(25); NextRound(26); NextRound(27); NextRound(28); NextRound(29);
    NextRound(30); NextRound(31);
  }

  lemma After3()
    ensures After(V0, M(), 48) == V48
  {
    hide After, Word, M, K, Round;
    After2(); Table2(); Rounds9(); Rounds10(); Rounds11(); Rounds12();
    NextRound(32); NextRound(33); NextRound(34); NextRound(35); NextRound(36); NextRound(37); NextRound(38);
    NextRound(39); NextRound(40); NextRound(41); NextRound(42); NextRound(43); NextRound(44); NextRound(45);
    NextRound(46); NextRound(47);
  }

  lemma After4()
    ensures After(V0, M(), 64) == V64
  {
    hide After, Word, M, K, Round;
    After3(); Table3(); Rounds13(); Rounds14(); Rounds15(); Rounds16();
    NextRound(48); NextRound(49); NextRound(50); NextRound(51); NextRound(52); NextRound(53); NextRound(54);
    NextRound(55); NextRound(56); NextRound(57); NextRound(58); NextRound(59); NextRound(60); NextRound(61);
    NextRound(62); NextRound(63);
  }

  lemma After5()
    ensures After(V0, M(), 80) == V80
  {
    hide After, Word, M, K, Round;
    After4(); Table4(); Rounds17(); Rounds18(); Rounds19(); Rounds20();
    NextRound(64); NextRound(65); NextRound(66); NextRound(67); NextRound(68); NextRound(69); NextRound(70);
    NextRound(71); NextRound(72); NextRound(73); NextRound(74); NextRound(75); NextRound(76); NextRound(77);
    NextRound(78); NextRound(79);
  }

  // ----- the digest -----

  lemma BlockIs()
    ensures |Pad(SHA512, ABC)| == 128 && Block(Pad(SHA512, ABC)) == M()
  {
    PaddedIs(SHA512);
    var p := Pad(SHA512, ABC);
    hide Pad;
    forall i | 0 <= i < 16
      ensures Word64(p, i) == M()[i]
    {
      if 0 < i < 15 { assert M()[i] == 0; }
    }
    assert Block(p) == M();
  }

  lemma StartIs()
    ensures InitialValue(SHA512) == V512(V0)
  {
  }

  lemma HashIs()
    ensures Hash(SHA512, Pad(SHA512, ABC)) == V512(Compress(V0, M()))
  {
    hide Compress, M, Block, InitialValue, Pad, Hash;
    BlockIs();
    StartIs();
    OneBlock(SHA512, Pad(SHA512, ABC));
  }

  lemma CompressedIs()
    ensures Compress(V0, M()) ==
      Vars(0xddaf35a193617aba, 0xcc417349ae204131, 0x12e6fa4e89a97ea2, 0x0a9eeee64b55d39a,
           0x2192992a274fc1a8, 0x36ba3c23a3feebbd, 0x454d4423643ce80e, 0x2a9ac94fa54ca49f)
  {
    After5();
    hide After, M;
  }

  lemma BytesAre()
    ensures Bytes64(0xddaf35a193617aba) == [0xdd, 0xaf, 0x35, 0xa1, 0x93, 0x61, 0x7a, 0xba]
    ensures Bytes64(0xcc417349ae204131) == [0xcc, 0x41, 0x73, 0x49, 0xae, 0x20, 0x41, 0x31]
    ensures Bytes64(0x12e6fa4e89a97ea2) == [0x12, 0xe6, 0xfa, 0x4e, 0x89, 0xa9, 0x7e, 0xa2]
    ensures Bytes64(0x0a9eeee64b55d39a) == [0x0a, 0x9e, 0xee, 0xe6, 0x4b, 0x55, 0xd3, 0x9a]
    ensures Bytes64(0x2192992a274fc1a8) == [0x21, 0x92, 0x99, 0x2a, 0x27, 0x4f, 0xc1, 0xa8]
    ensures Bytes64(0x36ba3c23a3feebbd) == [0x36, 0xba, 0x3c, 0x23, 0xa3, 0xfe, 0xeb, 0xbd]
    ensures Bytes64(0x454d4423643ce80e) == [0x45, 0x4d, 0x44, 0x23, 0x64, 0x3c, 0xe8, 0x0e]
    ensures Bytes64(0x2a9ac94fa54ca49f) == [0x2a, 0x9a, 0xc9, 0x4f, 0xa5, 0x4c, 0xa4, 0x9f]
  {
  }

  /** The digest of "abc". */
  lemma DigestIs()
    ensures Digest(SHA512, ABC) ==
      [0xdd, 0xaf, 0x35, 0xa1, 0x93, 0x61, 0x7a, 0xba] + [0xcc, 0x41, 0x73, 0x49, 0xae, 0x20, 0x41, 0x31] +
      [0x12, 0xe6, 0xfa, 0x4e, 0x89, 0xa9, 0x7e, 0xa2] + [0x0a, 0x9e, 0xee, 0xe6, 0x4b, 0x55, 0xd3, 0x9a] +
      [0x21, 0x92, 0x99, 0x2a, 0x27, 0x4f, 0xc1, 0xa8] + [0x36, 0xba, 0x3c, 0x23, 0xa3, 0xfe, 0xeb, 0xbd] +
      [0x45, 0x4d, 0x44, 0x23, 0x64, 0x3c, 0xe8, 0x0e] + [0x2a, 0x9a, 0xc9, 0x4f, 0xa5, 0x4c, 0xa4, 0x9f]
  {
    HashIs();
    CompressedIs();
    BytesAre();
    hide Hash, Compress, Bytes64, Pad;
  }
}
