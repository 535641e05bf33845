/**
 * SHA-384 of the three bytes "abc", the one-block example for FIPS 180-4: the message schedule and the working
 * variables after every round, each checked against the definition, and the digest.
 */
module Sha384Example {
  import opened ShaBytes
  import opened ShaSpec
  import opened ShaExample
  import opened Sha512
  import opened Sha512Example

  // ----- the working variables -----

  const V0 := Vars(0xcbbb9d5dc1059ed8, 0x629a292a367cd507, 0x9159015a3070dd17, 0x152fecd8f70e5939,
                  0x67332667ffc00b31, 0x8eb44a8768581511, 0xdb0c2e0d64f98fa7, 0x47b5481dbefa4fa4)
  const V1 := Vars(0x470994ad30873f88, 0xcbbb9d5dc1059ed8, 0x629a292a367cd507, 0x9159015a3070dd17,
                  0xbd03f724be6075f9, 0x67332667ffc00b31, 0x8eb44a8768581511, 0xdb0c2e0d64f98fa7)
  const V2 := Vars(0x2e91230306a12ae0, 0x470994ad30873f88, 0xcbbb9d5dc1059ed8, 0x629a292a367cd507,
                  0x5e1b4e1695372b9e, 0xbd03f724be6075f9, 0x67332667ffc00b31, 0x8eb44a8768581511)
  const V3 := Vars(0xeebe5d379be707ad, 0x2e91230306a12ae0, 0x470994ad30873f88, 0xcbbb9d5dc1059ed8,
                  0x54074a65aef34336, 0x5e1b4e1695372b9e, 0xbd03f724be6075f9, 0x67332667ffc00b31)
  const V4 := Vars(0xe308483153e15ad6, 0xeebe5d379be707ad, 0x2e91230306a12ae0, 0x470994ad30873f88,
                  0x086c5b2d36a89178, 0x54074a65aef34336, 0x5e1b4e1695372b9e, 0xbd03f724be6075f9)
  const V5 := Vars(0x3a7a023c593d8479, 0xe308483153e15ad6, 0xeebe5d379be707ad, 0x2e91230306a12ae0,
                  0x8aa1144850633794, 0x086c5b2d36a89178, 0x54074a65aef34336, 0x5e1b4e1695372b9e)
  const V6 := Vars(0x333199a85f92b052, 0x3a7a023c593d8479, 0xe308483153e15ad6, 0xeebe5d379be707ad,
                  0x7a6316f0ef047ce7, 0x8aa1144850633794, 0x086c5b2d36a89178, 0x54074a65aef34336)
  const V7 := Vars(0x76f0741213dd2ef6, 0x333199a85f92b052, 0x3a7a023c593d8479, 0xe308483153e15ad6,
                  0x74063cba385f0675, 0x7a6316f0ef047ce7, 0x8aa1144850633794, 0x086c5b2d36a89178)
  const V8 := Vars(0x02f2a04d3aab1629, 0x76f0741213dd2ef6, 0x333199a85f92b052, 0x3a7a023c593d8479,
                  0x1688b9bf14980fc0, 0x74063cba385f0675, 0x7a6316f0ef047ce7, 0x8aa1144850633794)
  const V9 := Vars(0x73e5b2a1704a0349, 0x02f2a04d3aab1629, 0x76f0741213dd2ef6, 0x333199a85f92b052,
                  0xfd00139f705907d0, 0x1688b9bf14980fc0, 0x74063cba385f0675, 0x7a6316f0ef047ce7)
  const V10 := Vars(0xbf3f67ba12882648, 0x73e5b2a1704a0349, 0x02f2a04d3aab1629, 0x76f0741213dd2ef6,
                  0x652e311d4f0a4257, 0xfd00139f705907d0, 0x1688b9bf14980fc0, 0x74063cba385f0675)
  const V11 := Vars(0x33254508bb2ea48d, 0xbf3f67ba12882648, 0x73e5b2a1704a0349, 0x02f2a04d3aab1629,
                  0x9e18991c4f39f0ba, 0x652e311d4f0a4257, 0xfd00139f705907d0, 0x1688b9bf14980fc0)
  const V12 := Vars(0xc1fdb2a0205ea0e5, 0x33254508bb2ea48d, 0xbf3f67ba12882648, 0x73e5b2a1704a0349,
                  0x04732e8bc4044582, 0x9e18991c4f39f0ba, 0x652e311d4f0a4257, 0xfd00139f705907d0)
  const V13 := Vars(0x185f9ff038a50f39, 0xc1fdb2a0205ea0e5, 0x33254508bb2ea48d, 0xbf3f67ba12882648,
                  0x8b4acfc4d2b8afe6, 0x04732e8bc4044582, 0x9e18991c4f39f0ba, 0x652e311d4f0a4257)
  const V14 := Vars(0xe5f06744c0d7563a, 0x185f9ff038a50f39, 0xc1fdb2a0205ea0e5, 0x33254508bb2ea48d,
                  0x2fa93d1ce9523015, 0x8b4acfc4d2b8afe6, 0x04732e8bc4044582, 0x9e18991c4f39f0ba)
  const V15 := Vars(0x7e32dc0e9f414783, 0xe5f06744c0d7563a, 0x185f9ff038a50f39, 0xc1fdb2a0205ea0e5,
                  0x3a9950aaa5e75884, 0x2fa93d1ce9523015, 0x8b4acfc4d2b8afe6, 0x04732e8bc4044582)
  const V16 := Vars(0x1eab6159ae87ef6d, 0x7e32dc0e9f414783, 0xe5f06744c0d7563a, 0x185f9ff038a50f39,
                  0x153b895cfbc436c5, 0x3a9950aaa5e75884, 0x2fa93d1ce9523015, 0x8b4acfc4d2b8afe6)
  const V17 := Vars(0x33ef2cebbf1739aa, 0x1eab6159ae87ef6d, 0x7e32dc0e9f414783, 0xe5f06744c0d7563a,
                  0x9d1a64baf1d366aa, 0x153b895cfbc436c5, 0x3a9950aaa5e75884, 0x2fa93d1ce9523015)
  const V18 := Vars(0x7df1b65f1b87d6ca, 0x33ef2cebbf1739aa, 0x1eab6159ae87ef6d, 0x7e32dc0e9f414783,
                  0x5b6e369d36e8e181, 0x9d1a64baf1d366aa, 0x153b895cfbc436c5, 0x3a9950aaa5e75884)
  const V19 := Vars(0x63a24014a34bb0f6, 0x7df1b65f1b87d6ca, 0x33ef2cebbf1739aa, 0x1eab6159ae87ef6d,
                  0xe13e610eae680d85, 0x5b6e369d36e8e181, 0x9d1a64baf1d366aa, 0x153b895cfbc436c5)
  const V20 := Vars(0xf1aabd313309509b, 0x63a24014a34bb0f6, 0x7df1b65f1b87d6ca, 0x33ef2cebbf1739aa,
                  0x674385f0d87db94f, 0xe13e610eae680d85, 0x5b6e369d36e8e181, 0x9d1a64baf1d366aa)
  const V21 := Vars(0x9ba737ae88a72c64, 0xf1aabd313309509b, 0x63a24014a34bb0f6, 0x7df1b65f1b87d6ca,
                  0x3fc2614c43906c0f, 0x674385f0d87db94f, 0xe13e610eae680d85, 0x5b6e369d36e8e181)
  const V22 := Vars(0x042c2dc9a5bf558a, 0x9ba737ae88a72c64, 0xf1aabd313309509b, 0x63a24014a34bb0f6,
                  0x19316bebc88e01f2, 0x3fc2614c43906c0f, 0x674385f0d87db94f, 0xe13e610eae680d85)
  const V23 := Vars(0x7799c75acc748c0f, 0x042c2dc9a5bf558a, 0x9ba737ae88a72c64, 0xf1aabd313309509b,
                  0xa7bbd65bf64f58c8, 0x19316bebc88e01f2, 0x3fc2614c43906c0f, 0x674385f0d87db94f)
  const V24 := Vars(0xccf99a80f92bf002, 0x7799c75acc748c0f, 0x042c2dc9a5bf558a, 0x9ba737ae88a72c64,
                  0xe52a24fae4e8fc9b, 0xa7bbd65bf64f58c8, 0x19316bebc88e01f2, 0x3fc2614c43906c0f)
  const V25 := Vars(0xae993474363efe68, 0xccf99a80f92bf002, 0x7799c75acc748c0f, 0x042c2dc9a5bf558a,
                  0x587f308d58681928, 0xe52a24fae4e8fc9b, 0xa7bbd65bf64f58c8, 0x19316bebc88e01f2)
  const V26 := Vars(0x335063d1a2aec92f, 0xae993474363efe68, 0xccf99a80f92bf002, 0x7799c75acc748c0f,
                  0xc2d6d65e38c6ea79, 0x587f308d58681928, 0xe52a24fae4e8fc9b, 0xa7bbd65bf64f58c8)
  const V27 := Vars(0x53a78b0cca01ba37, 0x335063d1a2aec92f, 0xae993474363efe68, 0xccf99a80f92bf002,
                  0x3b65a26c3c92c8f3, 0xc2d6d65e38c6ea79, 0x587f308d58681928, 0xe52a24fae4e8fc9b)
  const V28 := Vars(0xab7ffa529f622930, 0x53a78b0cca01ba37, 0x335063d1a2aec92f, 0xae993474363efe68,
                  0xb9d8a2f2762901ea, 0x3b65a26c3c92c8f3, 0xc2d6d65e38c6ea79, 0x587f308d58681928)
  const V29 := Vars(0xe428bb43afe3d63e, 0xab7ffa529f622930, 0x53a78b0cca01ba37, 0x335063d1a2aec92f,
                  0x6a8527525f898726, 0xb9d8a2f2762901ea, 0x3b65a26c3c92c8f3, 0xc2d6d65e38c6ea79)
  const V30 := Vars(0xbbed541a5128088c, 0xe428bb43afe3d63e, 0xab7ffa529f622930, 0x53a78b0cca01ba37,
                  0x7973aadbde294be9, 0x6a8527525f898726, 0xb9d8a2f2762901ea, 0x3b65a26c3c92c8f3)
  const V31 := Vars(0x4c5c38df7ec8baf4, 0xbbed541a5128088c, 0xe428bb43afe3d63e, 0xab7ffa529f622930,
                  0x422ceea0200e9ee4, 0x7973aadbde294be9, 0x6a8527525f898726, 0xb9d8a2f2762901ea)
  const V32 := Vars(0x4ba456ec244033ed, 0x4c5c38df7ec8baf4, 0xbbed541a5128088c, 0xe428bb43afe3d63e,
                  0x7cf40857056d86b0, 0x422ceea0200e9ee4, 0x7973aadbde294be9, 0x6a8527525f898726)
  const V33 := Vars(0xaa4a6ab2ac5f5dd8, 0x4ba456ec244033ed, 0x4c5c38df7ec8baf4, 0xbbed541a5128088c,
                  0xad2b1ecfb5bfc556, 0x7cf40857056d86b0, 0x422ceea0200e9ee4, 0x7973aadbde294be9)
  const V34 := Vars(0x9cb941f2ced774b3, 0xaa4a6ab2ac5f5dd8, 0x4ba456ec244033ed, 0x4c5c38df7ec8baf4,
                  0x029f66c7b4569bf0, 0xad2b1ecfb5bfc556, 0x7cf40857056d86b0, 0x422ceea0200e9ee4)
  const V35 := Vars(0x39265f358594de27, 0x9cb941f2ced774b3, 0xaa4a6ab2ac5f5dd8, 0x4ba456ec244033ed,
                  0x3f7b1c260c82e54f, 0x029f66c7b4569bf0, 0xad2b1ecfb5bfc556, 0x7cf40857056d86b0)
  const V36 := Vars(0x09cca487d39b02a1, 0x39265f358594de27, 0x9cb941f2ced774b3, 0xaa4a6ab2ac5f5dd8,
                  0x4a22b37b58a5b1b0, 0x3f7b1c260c82e54f, 0x029f66c7b4569bf0, 0xad2b1ecfb5bfc556)
  const V37 := Vars(0xd48d97ce438cf4f0, 0x09cca487d39b02a1, 0x39265f358594de27, 0x9cb941f2ced774b3,
                  0xa239e00b8baa0410, 0x4a22b37b58a5b1b0, 0x3f7b1c260c82e54f, 0x029f66c7b4569bf0)
  const V38 := Vars(0xd6f41e25a8b634d6, 0xd48d97ce438cf4f0, 0x09cca487d39b02a1, 0x39265f358594de27,
                  0x25755cb8179dd0b0, 0xa239e00b8baa0410, 0x4a22b37b58a5b1b0, 0x3f7b1c260c82e54f)
  const V39 := Vars(0x54078334358573b4, 0xd6f41e25a8b634d6, 0xd48d97ce438cf4f0, 0x09cca487d39b02a1,
                  0x0e419fb0802b0efc, 0x25755cb8179dd0b0, 0xa239e00b8baa0410, 0x4a22b37b58a5b1b0)
  const V40 := Vars(0xdb24f9a03f4fff6b, 0x54078334358573b4, 0xd6f41e25a8b634d6, 0xd48d97ce438cf4f0,
                  0xd30e99b4b394b090, 0x0e419fb0802b0efc, 0x25755cb8179dd0b0, 0xa239e00b8baa0410)
  const V41 := Vars(0x3604c53a845efc37, 0xdb24f9a03f4fff6b, 0x54078334358573b4, 0xd6f41e25a8b634d6,
                  0x791b2b4af7338b99, 0xd30e99b4b394b090, 0x0e419fb0802b0efc, 0x25755cb8179dd0b0)
  const V42 := Vars(0xf41b1c0eee89bdc6, 0x3604c53a845efc37, 0xdb24f9a03f4fff6b, 0x54078334358573b4,
                  0xe319b77d9e4e87f9, 0x791b2b4af7338b99, 0xd30e99b4b394b090, 0x0e419fb0802b0efc)
  const V43 := Vars(0x36644ae374632e3a, 0xf41b1c0eee89bdc6, 0x3604c53a845efc37, 0xdb24f9a03f4fff6b,
                  0x458250878a3972b2, 0xe319b77d9e4e87f9, 0x791b2b4af7338b99, 0xd30e99b4b394b090)
  const V44 := Vars(0x88806f6ae9fcd65b, 0x36644ae374632e3a, 0xf41b1c0eee89bdc6, 0x3604c53a845efc37,
                  0xcfde2e6ea54fa576, 0x458250878a3972b2, 0xe319b77d9e4e87f9, 0x791b2b4af7338b99)
  const V45 := Vars(0x51dcaa36995c301d, 0x88806f6ae9fcd65b, 0x36644ae374632e3a, 0xf41b1c0eee89bdc6,
                  0xe37f778353998050, 0xcfde2e6ea54fa576, 0x458250878a3972b2, 0xe319b77d9e4e87f9)
  const V46 := Vars(0xef5e3885a2f238df, 0x51dcaa36995c301d, 0x88806f6ae9fcd65b, 0x36644ae374632e3a,
                  0x740e347f24e18fda, 0xe37f778353998050, 0xcfde2e6ea54fa576, 0x458250878a3972b2)
  const V47 := Vars(0xeb3753f4283f4818, 0xef5e3885a2f238df, 0x51dcaa36995c301d, 0x88806f6ae9fcd65b,
                  0x0ae48cf840bb8be9, 0x740e347f24e18fda, 0xe37f778353998050, 0xcfde2e6ea54fa576)
  const V48 := Vars(0xa6998d63a5d09e04, 0xeb3753f4283f4818, 0xef5e3885a2f238df, 0x51dcaa36995c301d,
                  0xe21095012ee0b72a, 0x0ae48cf840bb8be9, 0x740e347f24e18fda, 0xe37f778353998050)
  const V49 := Vars(0xd3698fb64df175b0, 0xa6998d63a5d09e04, 0xeb3753f4283f4818, 0xef5e3885a2f238df,
                  0xc2f0b90ffce80739, 0xe21095012ee0b72a, 0x0ae48cf840bb8be9, 0x740e347f24e18fda)
  const V50 := Vars(0x317a3b295b991914, 0xd3698fb64df175b0, 0xa6998d63a5d09e04, 0xeb3753f4283f4818,
                  0x1cadff2e6cb5aa4d, 0xc2f0b90ffce80739, 0xe21095012ee0b72a, 0x0ae48cf840bb8be9)
  const V51 := Vars(0x0941da08148ba463, 0x317a3b295b991914, 0xd3698fb64df175b0, 0xa6998d63a5d09e04,
                  0x833eb9a4bb5a073e, 0x1cadff2e6cb5aa4d, 0xc2f0b90ffce80739, 0xe21095012ee0b72a)
  const V52 := Vars(0x494ac238d68c3d0b, 0x0941da08148ba463, 0x317a3b295b991914, 0xd3698fb64df175b0,
                  0x80c8fc138e645028, 0x833eb9a4bb5a073e, 0x1cadff2e6cb5aa4d, 0xc2f0b90ffce80739)
  const V53 := Vars(0xc87e9168db9e97de, 0x494ac238d68c3d0b, 0x0941da08148ba463, 0x317a3b295b991914,
                  0x65cf7f6a829aca04, 0x80c8fc138e645028, 0x833eb9a4bb5a073e, 0x1cadff2e6cb5aa4d)
  const V54 := Vars(0xedb4448879391dbb, 0xc87e9168db9e97de, 0x494ac238d68c3d0b, 0x0941da08148ba463,
                  0x7729c85475dd318f, 0x65cf7f6a829aca04, 0x80c8fc138e645028, 0x833eb9a4bb5a073e)
  const V55 := Vars(0x073775c2456dc7db, 0xedb4448879391dbb, 0xc87e9168db9e97de, 0x494ac238d68c3d0b,
                  0xa9cca0b6266b1d77, 0x7729c85475dd318f, 0x65cf7f6a829aca04, 0x80c8fc138e645028)
  const V56 := Vars(0x54de8857b24afaf7, 0x073775c2456dc7db, 0xedb4448879391dbb, 0xc87e9168db9e97de,
                  0x8de51cff2ae4b068, 0xa9cca0b6266b1d77, 0x7729c85475dd318f, 0x65cf7f6a829aca04)
  const V57 := Vars(0x8a9cdd80f7f09c05, 0x54de8857b24afaf7, 0x073775c2456dc7db, 0xedb4448879391dbb,
                  0xa60ba5e9ebaeb96a, 0x8de51cff2ae4b068, 0xa9cca0b6266b1d77, 0x7729c85475dd318f)
  const V58 := Vars(0x3eeb22a7524d8d7f, 0x8a9cdd80f7f09c05, 0x54de8857b24afaf7, 0x073775c2456dc7db,
                  0xe2e6830b139df58f, 0xa60ba5e9ebaeb96a, 0x8de51cff2ae4b068, 0xa9cca0b6266b1d77)
  const V59 := Vars(0x0ed77c9cde8883d3, 0x3eeb22a7524d8d7f, 0x8a9cdd80f7f09c05, 0x54de8857b24afaf7,
                  0x38413a2052387a9e, 0xe2e6830b139df58f, 0xa60ba5e9ebaeb96a, 0x8de51cff2ae4b068)
  const V60 := Vars(0xe64e4135f9d30dbc, 0x0ed77c9cde8883d3, 0x3eeb22a7524d8d7f, 0x8a9cdd80f7f09c05,
                  0x45b640454c75c349, 0x38413a2052387a9e, 0xe2e6830b139df58f, 0xa60ba5e9ebaeb96a)
  const V61 := Vars(0x1ca93a293d544328, 0xe64e4135f9d30dbc, 0x0ed77c9cde8883d3, 0x3eeb22a7524d8d7f,
                  0xefbef83a35c0319e, 0x45b640454c75c349, 0x38413a2052387a9e, 0xe2e6830b139df58f)
  const V62 := Vars(0x3dc764f89e54043a, 0x1ca93a293d544328, 0xe64e4135f9d30dbc, 0x0ed77c9cde8883d3,
                  0xa57784945550cf94, 0xefbef83a35c0319e, 0x45b640454c75c349, 0x38413a2052387a9e)
  const V63 := Vars(0x56fb5883f1c87a05, 0x3dc764f89e54043a, 0x1ca93a293d544328, 0xe64e4135f9d30dbc,
                  0xf5198a41eb80e022, 0xa57784945550cf94, 0xefbef83a35c0319e, 0x45b640454c75c349)
  const V64 := Vars(0x24a1124262a331c7, 0x56fb5883f1c87a05, 0x3dc764f89e54043a, 0x1ca93a293d544328,
                  0x06edacae6e7b54ad, 0xf5198a41eb80e022, 0xa57784945550cf94, 0xefbef83a35c0319e)
  const V65 := Vars(0xeb85d19201c89694, 0x24a1124262a331c7, 0x56fb5883f1c87a05, 0x3dc764f89e54043a,
                  0x9ced24983eec8723, 0x06edacae6e7b54ad, 0xf5198a41eb80e022, 0xa57784945550cf94)
  const V66 := Vars(0xcc981ab3a59c1db4, 0xeb85d19201c89694, 0x24a1124262a331c7, 0x56fb5883f1c87a05,
                  0xeac5516336bc8882, 0x9ced24983eec8723, 0x06edacae6e7b54ad, 0xf5198a41eb80e022)
  const V67 := Vars(0xceef5d997e148b44, 0xcc981ab3a59c1db4, 0xeb85d19201c89694, 0x24a1124262a331c7,
                  0x617bbf70bb165212, 0xeac5516336bc8882, 0x9ced24983eec8723, 0x06edacae6e7b54ad)
  const V68 := Vars(0x689edf608a8e3f14, 0xceef5d997e148b44, 0xcc981ab3a59c1db4, 0xeb85d19201c89694,
                  0x3280d88472c100fd, 0x617bbf70bb165212, 0xeac5516336bc8882, 0x9ced24983eec8723)
  const V69 := Vars(0x1e6e0255ab88079f, 0x689edf608a8e3f14, 0xceef5d997e148b44, 0xcc981ab3a59c1db4,
                  0xf2001138439902b1, 0x3280d88472c100fd, 0x617bbf70bb165212, 0xeac5516336bc8882)
  const V70 := Vars(0x8c5d3b7fdad66e70, 0x1e6e0255ab88079f, 0x689edf608a8e3f14, 0xceef5d997e148b44,
                  0x90d18ec8b69f0345, 0xf2001138439902b1, 0x3280d88472c100fd, 0x617bbf70bb165212)
  const V71 := Vars(0x32e5ed8655871e9b, 0x8c5d3b7fdad66e70, 0x1e6e0255ab88079f, 0x689edf608a8e3f14,
                  0x51105f6241313777, 0x90d18ec8b69f0345, 0xf2001138439902b1, 0x3280d88472c100fd)
  const V72 := Vars(0xbcd5061679be7336, 0x32e5ed8655871e9b, 0x8c5d3b7fdad66e70, 0x1e6e0255ab88079f,
                  0x454b99f654443ad0, 0x51105f6241313777, 0x90d18ec8b69f0345, 0xf2001138439902b1)
  const V73 := Vars(0xe7d913b6678e78ef, 0xbcd5061679be7336, 0x32e5ed8655871e9b, 0x8c5d3b7fdad66e70,
                  0x1ff613b5aa63776e, 0x454b99f654443ad0, 0x51105f6241313777, 0x90d18ec8b69f0345)
  const V74 := Vars(0xe6b8cb8dfa3475ab, 0xe7d913b6678e78ef, 0xbcd5061679be7336, 0x32e5ed8655871e9b,
                  0x2e75f34303d39bb0, 0x1ff613b5aa63776e, 0x454b99f654443ad0, 0x51105f6241313777)
  const V75 := Vars(0xfdd4a30e168c4ae5, 0xe6b8cb8dfa3475ab, 0xe7d913b6678e78ef, 0xbcd5061679be7336,
                  0x83a35dbe2a64fc26, 0x2e75f34303d39bb0, 0x1ff613b5aa63776e, 0x454b99f654443ad0)
  const V76 := Vars(0x12aeb6268dfa3e14, 0xfdd4a30e168c4ae5, 0xe6b8cb8dfa3475ab, 0xe7d913b6678e78ef,
                  0xf660943b276786f7, 0x83a35dbe2a64fc26, 0x2e75f34303d39bb0, 0x1ff613b5aa63776e)
  const V77 := Vars(0x055b73814cf102b4, 0x12aeb6268dfa3e14, 0xfdd4a30e168c4ae5, 0xe6b8cb8dfa3475ab,
                  0xc4b149710f5d6a71, 0xf660943b276786f7, 0x83a35dbe2a64fc26, 0x2e75f34303d39bb0)
  const V78 := Vars(0x95d33150de6df44c, 0x055b73814cf102b4, 0x12aeb6268dfa3e14, 0xfdd4a30e168c4ae5,
                  0xc7f7bff08ebf0d30, 0xc4b149710f5d6a71, 0xf660943b276786f7, 0x83a35dbe2a64fc26)
  const V79 := Vars(0x5306143f64497b00, 0x95d33150de6df44c, 0x055b73814cf102b4, 0x12aeb6268dfa3e14,
                  0xca06a219cc701096, 0xc7f7bff08ebf0d30, 0xc4b149710f5d6a71, 0xf660943b276786f7)
  const V80 := Vars(0xff44d7e1849dbfb3, 0x5306143f64497b00, 0x95d33150de6df44c, 0x055b73814cf102b4,
                  0x1952e0c3a227c0f2, 0xca06a219cc701096, 0xc7f7bff08ebf0d30, 0xc4b149710f5d6a71)

  lemma Rounds1()
    ensures V1 == Round(V0, K(0), W0) && V2 == Round(V1, K(1), W1) && V3 == Round(V2, K(2), W2)
    ensures V4 == Round(V3, K(3), W3)
  {
    Rotations();
    hide Rotr;
  }

  lemma Rounds2()
    ensures V5 == Round(V4, K(4), W4) && V6 == Round(V5, K(5), W5) && V7 == Round(V6, K(6), W6)
    ensures V8 == Round(V7, K(7), W7)
  {
    Rotations();
    hide Rotr;
  }

  lemma Rounds3()
    ensures V9 == Round(V8, K(8), W8) && V10 == Round(V9, K(9), W9) && V11 == Round(V10, K(10), W10)
    ensures V12 == Round(V11, K(11), W11)
  {
    Rotations();
    hide Rotr;
  }

  lemma Rounds4()
    ensures V13 == Round(V12, K(12), W12) && V14 == Round(V13, K(13), W13) && V15 == Round(V14, K(14), W14)
    ensures V16 == Round(V15, K(15), W15)
  {
    Rotations();
    hide Rotr;
  }

  lemma Rounds5()
    ensures V17 == Round(V16, K(16), W16) && V18 == Round(V17, K(17), W17) && V19 == Round(V18, K(18), W18)
    ensures V20 == Round(V19, K(19), W19)
  {
    Rotations();
    hide Rotr;
  }

  lemma Rounds6()
    ensures V21 == Round(V20, K(20), W20) && V22 == Round(V21, K(21), W21) && V23 == Round(V22, K(22), W22)
    ensures V24 == Round(V23, K(23), W23)
  {
    Rotations();
    hide Rotr;
  }

  lemma Rounds7()
    ensures V25 == Round(V24, K(24), W24) && V26 == Round(V25, K(25), W25) && V27 == Round(V26, K(26), W26)
    ensures V28 == Round(V27, K(27), W27)
  {
    Rotations();
    hide Rotr;
  }

  lemma Rounds8()
    ensures V29 == Round(V28, K(28), W28) && V30 == Round(V29, K(29), W29) && V31 == Round(V30, K(30), W30)
    ensures V32 == Round(V31, K(31), W31)
  {
    Rotations();
    hide Rotr;
  }

  lemma Rounds9()
    ensures V33 == Round(V32, K(32), W32) && V34 == Round(V33, K(33), W33) && V35 == Round(V34, K(34), W34)
    ensures V36 == Round(V35, K(35), W35)
  {
    Rotations();
    hide Rotr;
  }

  lemma Rounds10()
    ensures V37 == Round(V36, K(36), W36) && V38 == Round(V37, K(37), W37) && V39 == Round(V38, K(38), W38)
    ensures V40 == Round(V39, K(39), W39)
  {
    Rotations();
    hide Rotr;
  }

  lemma Rounds11()
    ensures V41 == Round(V40, K(40), W40) && V42 == Round(V41, K(41), W41) && V43 == Round(V42, K(42), W42)
    ensures V44 == Round(V43, K(43), W43)
  {
    Rotations();
    hide Rotr;
  }

  lemma Rounds12()
    ensures V45 == Round(V44, K(44), W44) && V46 == Round(V45, K(45), W45) && V47 == Round(V46, K(46), W46)
    ensures V48 == Round(V47, K(47), W47)
  {
    Rotations();
    hide Rotr;
  }

  lemma Rounds13()
    ensures V49 == Round(V48, K(48), W48) && V50 == Round(V49, K(49), W49) && V51 == Round(V50, K(50), W50)
    ensures V52 == Round(V51, K(51), W51)
  {
    Rotations();
    hide Rotr;
  }

  lemma Rounds14()
    ensures V53 == Round(V52, K(52), W52) && V54 == Round(V53, K(53), W53) && V55 == Round(V54, K(54), W54)
    ensures V56 == Round(V55, K(55), W55)
  {
    Rotations();
    hide Rotr;
  }

  lemma Rounds15()
    ensures V57 == Round(V56, K(56), W56) && V58 == Round(V57, K(57), W57) && V59 == Round(V58, K(58), W58)
    ensures V60 == Round(V59, K(59), W59)
  {
    Rotations();
    hide Rotr;
  }

  lemma Rounds16()
    ensures V61 == Round(V60, K(60), W60) && V62 == Round(V61, K(61), W61) && V63 == Round(V62, K(62), W62)
    ensures V64 == Round(V63, K(63), W63)
  {
    Rotations();
    hide Rotr;
  }

  lemma Rounds17()
    ensures V65 == Round(V64, K(64), W64) && V66 == Round(V65, K(65), W65) && V67 == Round(V66, K(66), W66)
    ensures V68 == Round(V67, K(67), W67)
  {
    Rotations();
    hide Rotr;
  }

  lemma Rounds18()
    ensures V69 == Round(V68, K(68), W68) && V70 == Round(V69, K(69), W69) && V71 == Round(V70, K(70), W70)
    ensures V72 == Round(V71, K(71), W71)
  {
    Rotations();
    hide Rotr;
  }

  lemma Rounds19()
    ensures V73 == Round(V72, K(72), W72) && V74 == Round(V73, K(73), W73) && V75 == Round(V74, K(74), W74)
    ensures V76 == Round(V75, K(75), W75)
  {
    Rotations();
    hide Rotr;
  }

  lemma Rounds20()
    ensures V77 == Round(V76, K(76), W76) && V78 == Round(V77, K(77), W77) && V79 == Round(V78, K(78), W78)
    ensures V80 == Round(V79, K(79), W79)
  {
    Rotations();
    hide Rotr;
  }

  lemma NextRound(t: nat)
    requires t < ROUNDS
    ensures After(V0, M(), t + 1) == Round(After(V0, M(), t), K(t), Word(t))
  {
    WordIs(t);
  }

  lemma NoRound()
    ensures After(V0, M(), 0) == V0
  {
  }

  lemma After1()
    ensures After(V0, M(), 16) == V16
  {
    hide After, Word, M, K, Round;
    NoRound(); Table0(); Rounds1(); Rounds2(); Rounds3(); Rounds4();
    NextRound(0); NextRound(1); NextRound(2); NextRound(3); NextRound(4); NextRound(5); NextRound(6); NextRound(7);
    NextRound(8); NextRound(9); NextRound(10); NextRound(11); NextRound(12); NextRound(13); NextRound(14);
    NextRound(15);
  }

  lemma After2()
    ensures After(V0, M(), 32) == V32
  {
    hide After, Word, M, K, Round;
    After1(); Table1(); Rounds5(); Rounds6(); Rounds7(); Rounds8();
    NextRound(16); NextRound(17); NextRound(18); NextRound(19); NextRound(20); NextRound(21); NextRound(22);
    NextRound(23); NextRound(24); NextRound(25); NextRound(26); NextRound(27); NextRound(28); NextRound(29);
    NextRound(30); NextRound(31);
  }

  lemma After3()
    ensures After(V0, M(), 48) == V48
  {
    hide After, Word, M, K, Round;
    After2(); Table2(); Rounds9(); Rounds10(); Rounds11(); Rounds12();
    NextRound(32); NextRound(33); NextRound(34); NextRound(35); NextRound(36); NextRound(37); NextRound(38);
    NextRound(39); NextRound(40); NextRound(41); NextRound(42); NextRound(43); NextRound(44); NextRound(45);
    NextRound(46); NextRound(47);
  }

  lemma After4()
    ensures After(V0, M(), 64) == V64
  {
    hide After, Word, M, K, Round;
    After3(); Table3(); Rounds13(); Rounds14(); Rounds15(); Rounds16();
    NextRound(48); NextRound(49); NextRound(50); NextRound(51); NextRound(52); NextRound(53); NextRound(54);
    NextRound(55); NextRound(56); NextRound(57); NextRound(58); NextRound(59); NextRound(60); NextRound(61);
    NextRound(62); NextRound(63);
  }

  lemma After5()
    ensures After(V0, M(), 80) == V80
  {
    hide After, Word, M, K, Round;
    After4(); Table4(); Rounds17(); Rounds18(); Rounds19(); Rounds20();
    NextRound(64); NextRound(65); NextRound(66); NextRound(67); NextRound(68); NextRound(69); NextRound(70);
    NextRound(71); NextRound(72); NextRound(73); NextRound(74); NextRound(75); NextRound(76); NextRound(77);
    NextRound(78); NextRound(79);
  }

  // ----- the digest -----

  lemma BlockIs()
    ensures |Pad(SHA384, ABC)| == 128 && Block(Pad(SHA384, ABC)) == M()
  {
    PaddedIs(SHA384);
    var p := Pad(SHA384, ABC);
    hide Pad;
    forall i | 0 <= i < 16
      ensures Word64(p, i) == M()[i]
    {
      if 0 < i < 15 { assert M()[i] == 0; }
    }
    assert Block(p) == M();
  }

  lemma StartIs()
    ensures InitialValue(SHA384) == V512(V0)
  {
  }

  lemma HashIs()
    ensures Hash(SHA384, Pad(SHA384, ABC)) == V512(Compress(V0, M()))
  {
    hide Compress, M, Block, InitialValue, Pad, Hash;
    BlockIs();
    StartIs();
    OneBlock(SHA384, Pad(SHA384, ABC));
  }

  lemma CompressedIs()
    ensures Compress(V0, M()) ==
      Vars(0xcb00753f45a35e8b, 0xb5a03d699ac65007, 0x272c32ab0eded163, 0x1a8b605a43ff5bed,
           0x8086072ba1e7cc23, 0x58baeca134c825a7, 0xa303edfdf3b89cd7, 0x0c66918ece57ba15)
  {
    After5();
    hide After, M;
  }

  lemma BytesAre()
    ensures Bytes64(0xcb00753f45a35e8b) == [0xcb, 0x00, 0x75, 0x3f, 0x45, 0xa3, 0x5e, 0x8b]
    ensures Bytes64(0xb5a03d699ac65007) == [0xb5, 0xa0, 0x3d, 0x69, 0x9a, 0xc6, 0x50, 0x07]
    ensures Bytes64(0x272c32ab0eded163) == [0x27, 0x2c, 0x32, 0xab, 0x0e, 0xde, 0xd1, 0x63]
    ensures Bytes64(0x1a8b605a43ff5bed) == [0x1a, 0x8b, 0x60, 0x5a, 0x43, 0xff, 0x5b, 0xed]
    ensures Bytes64(0x8086072ba1e7cc23) == [0x80, 0x86, 0x07, 0x2b, 0xa1, 0xe7, 0xcc, 0x23]
    ensures Bytes64(0x58baeca134c825a7) == [0x58, 0xba, 0xec, 0xa1, 0x34, 0xc8, 0x25, 0xa7]
  {
  }

  /** The digest of "abc". */
  lemma DigestIs()
    ensures Digest(SHA384, ABC) ==
      [0xcb, 0x00, 0x75, 0x3f, 0x45, 0xa3, 0x5e, 0x8b] + [0xb5, 0xa0, 0x3d, 0x69, 0x9a, 0xc6, 0x50, 0x07] +
      [0x27, 0x2c, 0x32, 0xab, 0x0e, 0xde, 0xd1, 0x63] + [0x1a, 0x8b, 0x60, 0x5a, 0x43, 0xff, 0x5b, 0xed] +
      [0x80, 0x86, 0x07, 0x2b, 0xa1, 0xe7, 0xcc, 0x23] + [0x58, 0xba, 0xec, 0xa1, 0x34, 0xc8, 0x25, 0xa7]
  {
    HashIs();
    CompressedIs();
    BytesAre();
    hide Hash, Compress, Bytes64, Pad;
  }
}
