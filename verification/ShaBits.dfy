/**
 * What the functions of sections 4.1.1 to 4.1.3 of FIPS 180-4 do to each bit of their arguments, for all
 * words: which bits a result bit depends on, and how.
 */
module ShaBits {
  import Sha1
  import Sha256
  import Sha512

  // ----- 32-bit words -----

  /** Bit `i` of a word, counted from the least significant one. */
  predicate Bit32(x: bv32, i: bv32)
    requires i < 32
  {
    (x >> i) & 1 == 1
  }

  /** The position `k` places above `i`, around the end. */
  function Up32(i: bv32, k: bv32): (j: bv32)
    ensures j < 32
  {
    (i + k) % 32
  }

  function Three32(a: bv32, b: bv32, c: bv32): bv32 {
    a ^ b ^ c
  }

  /** Exclusive or. */
  lemma Exclusive32(a: bv32, b: bv32, c: bv32, i: bv32)
    requires i < 32
    ensures Bit32(a ^ b ^ c, i) == ((Bit32(a, i) != Bit32(b, i)) != Bit32(c, i))
  {
  }

  lemma Xor32(a: bv32, b: bv32, c: bv32, i: bv32)
    requires i < 32
    ensures Bit32(Three32(a, b, c), i) == ((Bit32(a, i) != Bit32(b, i)) != Bit32(c, i))
  {
    hide Bit32;
    Exclusive32(a, b, c, i);
  }

  lemma Choice32(x: bv32, y: bv32, z: bv32, i: bv32)
    requires i < 32
    ensures Bit32((x & y) ^ (!x & z), i) == if Bit32(x, i) then Bit32(y, i) else Bit32(z, i)
  {
  }

  lemma Majority32(x: bv32, y: bv32, z: bv32, i: bv32)
    requires i < 32
    ensures Bit32((x & y) ^ (x & z) ^ (y & z), i) == if Bit32(x, i) == Bit32(y, i) then Bit32(x, i) else Bit32(z, i)
  {
  }

  // ----- 64-bit words -----

  /** Bit `i` of a word, counted from the least significant one. */
  predicate Bit64(x: bv64, i: bv64)
    requires i < 64
  {
    (x >> i) & 1 == 1
  }

  /** The position `k` places above `i`, around the end. */
  function Up64(i: bv64, k: bv64): (j: bv64)
    ensures j < 64
  {
    (i + k) % 64
  }

  function Three64(a: bv64, b: bv64, c: bv64): bv64 {
    a ^ b ^ c
  }

  /** Exclusive or. */
  lemma Exclusive64(a: bv64, b: bv64, c: bv64, i: bv64)
    requires i < 64
    ensures Bit64(a ^ b ^ c, i) == ((Bit64(a, i) != Bit64(b, i)) != Bit64(c, i))
  {
  }

  lemma Xor64(a: bv64, b: bv64, c: bv64, i: bv64)
    requires i < 64
    ensures Bit64(Three64(a, b, c), i) == ((Bit64(a, i) != Bit64(b, i)) != Bit64(c, i))
  {
    hide Bit64;
    Exclusive64(a, b, c, i);
  }

  lemma Choice64(x: bv64, y: bv64, z: bv64, i: bv64)
    requires i < 64
    ensures Bit64((x & y) ^ (!x & z), i) == if Bit64(x, i) then Bit64(y, i) else Bit64(z, i)
  {
  }

  lemma Majority64(x: bv64, y: bv64, z: bv64, i: bv64)
    requires i < 64
    ensures Bit64((x & y) ^ (x & z) ^ (y & z), i) == if Bit64(x, i) == Bit64(y, i) then Bit64(x, i) else Bit64(z, i)
  {
  }

  // ----- SHA-1 -----

  /** A rotation to the left by `n` brings the bit `k` places further up, around the end, to each place. */
  lemma Sha1Rotated(x: bv32, n: nat, k: bv32, i: bv32)
    requires (n, k) in {(1, 31), (5, 27), (30, 2)} && i < 32
    ensures Bit32(Sha1.Rotl(x, n), i) == Bit32(x, Up32(i, k))
  {
    match n
    case 1 => case 5 => case _ =>
  }

  /** Each bit of x chooses between those of y and z. */
  lemma Sha1ChBits(x: bv32, y: bv32, z: bv32, i: bv32)
    requires i < 32
    ensures Bit32(Sha1.Ch(x, y, z), i) == if Bit32(x, i) then Bit32(y, i) else Bit32(z, i)
  {
    hide Bit32;
    Choice32(x, y, z, i);
  }

  /** The bit that at least two of the three words have. */
  lemma Sha1MajBits(x: bv32, y: bv32, z: bv32, i: bv32)
    requires i < 32
    ensures Bit32(Sha1.Maj(x, y, z), i) == if Bit32(x, i) == Bit32(y, i) then Bit32(x, i) else Bit32(z, i)
  {
    hide Bit32;
    Majority32(x, y, z, i);
  }

  lemma Sha1ParityBits(x: bv32, y: bv32, z: bv32, i: bv32)
    requires i < 32
    ensures Bit32(Sha1.Parity(x, y, z), i) == ((Bit32(x, i) != Bit32(y, i)) != Bit32(z, i))
  {
    hide Bit32, Three32, Sha1.Parity;
    Sha1ParityShape(x, y, z);
    Xor32(x, y, z, i);
  }

  lemma Sha1ParityShape(x: bv32, y: bv32, z: bv32)
    ensures Sha1.Parity(x, y, z) == Three32(x, y, z)
  {
  }

  /** The function of a round is the choice, the parity, the majority and the parity, for twenty rounds each. */
  lemma Sha1RoundFunction(t: nat, x: bv32, y: bv32, z: bv32)
    requires t < 80
    ensures Sha1.F(t, x, y, z) == match t / 20
      case 0 => Sha1.Ch(x, y, z)
      case 2 => Sha1.Maj(x, y, z)
      case _ => Sha1.Parity(x, y, z)
  {
    hide Sha1.Ch, Sha1.Maj, Sha1.Parity;
  }

  // ----- SHA-256 -----

  /** A rotation to the right by `n` brings the bit `k` places further up, around the end, to each place. */
  lemma Sha256BigRotated(x: bv32, n: nat, k: bv32, i: bv32)
    requires (n, k) in {(2, 2), (6, 6), (11, 11), (13, 13), (22, 22), (25, 25)} && i < 32
    ensures Bit32(Sha256.Rotr(x, n), i) == Bit32(x, Up32(i, k))
  {
    match n
    case 2 => case 6 => case 11 => case 13 => case 22 => case _ =>
  }

  /** A rotation to the right by `n` brings the bit `k` places further up, around the end, to each place. */
  lemma Sha256SmallRotated(x: bv32, n: nat, k: bv32, i: bv32)
    requires (n, k) in {(7, 7), (17, 17), (18, 18), (19, 19)} && i < 32
    ensures Bit32(Sha256.Rotr(x, n), i) == Bit32(x, Up32(i, k))
  {
    match n
    case 7 => case 17 => case 18 => case _ =>
  }

  lemma Shifted32By3(x: bv32, i: bv32)
    requires i < 32
    ensures Bit32(x >> 3, i) == (i < 29 && Bit32(x, Up32(i, 3)))
  {
  }

  lemma Shifted32By10(x: bv32, i: bv32)
    requires i < 32
    ensures Bit32(x >> 10, i) == (i < 22 && Bit32(x, Up32(i, 10)))
  {
  }

  /** Each bit of x chooses between those of y and z. */
  lemma Sha256ChBits(x: bv32, y: bv32, z: bv32, i: bv32)
    requires i < 32
    ensures Bit32(Sha256.Ch(x, y, z), i) == if Bit32(x, i) then Bit32(y, i) else Bit32(z, i)
  {
    hide Bit32;
    Choice32(x, y, z, i);
  }

  /** The bit that at least two of the three words have. */
  lemma Sha256MajBits(x: bv32, y: bv32, z: bv32, i: bv32)
    requires i < 32
    ensures Bit32(Sha256.Maj(x, y, z), i) == if Bit32(x, i) == Bit32(y, i) then Bit32(x, i) else Bit32(z, i)
  {
    hide Bit32;
    Majority32(x, y, z, i);
  }

  lemma Sha256BigSigma0Shape(x: bv32)
    ensures Sha256.BigSigma0(x) == Three32(Sha256.Rotr(x, 2), Sha256.Rotr(x, 13), Sha256.Rotr(x, 22))
  {
    hide Sha256.Rotr;
  }

  lemma Sha256BigSigma0Bits(x: bv32, i: bv32)
    requires i < 32
    ensures Bit32(Sha256.BigSigma0(x), i) ==
      ((Bit32(x, Up32(i, 2)) != Bit32(x, Up32(i, 13))) != Bit32(x, Up32(i, 22)))
  {
    hide Bit32, Up32, Three32, Sha256.Rotr, Sha256.BigSigma0;
    Sha256BigSigma0Shape(x);
    Sha256BigRotated(x, 2, 2, i); Sha256BigRotated(x, 13, 13, i); Sha256BigRotated(x, 22, 22, i);
    Xor32(Sha256.Rotr(x, 2), Sha256.Rotr(x, 13), Sha256.Rotr(x, 22), i);
  }

  lemma Sha256BigSigma1Shape(x: bv32)
    ensures Sha256.BigSigma1(x) == Three32(Sha256.Rotr(x, 6), Sha256.Rotr(x, 11), Sha256.Rotr(x, 25))
  {
    hide Sha256.Rotr;
  }

  lemma Sha256BigSigma1Bits(x: bv32, i: bv32)
    requires i < 32
    ensures Bit32(Sha256.BigSigma1(x), i) ==
      ((Bit32(x, Up32(i, 6)) != Bit32(x, Up32(i, 11))) != Bit32(x, Up32(i, 25)))
  {
    hide Bit32, Up32, Three32, Sha256.Rotr, Sha256.BigSigma1;
    Sha256BigSigma1Shape(x);
    Sha256BigRotated(x, 6, 6, i); Sha256BigRotated(x, 11, 11, i); Sha256BigRotated(x, 25, 25, i);
    Xor32(Sha256.Rotr(x, 6), Sha256.Rotr(x, 11), Sha256.Rotr(x, 25), i);
  }

  lemma Sha256SmallSigma0Shape(x: bv32)
    ensures Sha256.SmallSigma0(x) == Three32(Sha256.Rotr(x, 7), Sha256.Rotr(x, 18), x >> 3)
  {
    hide Sha256.Rotr;
  }

  lemma Sha256SmallSigma0Bits(x: bv32, i: bv32)
    requires i < 32
    ensures Bit32(Sha256.SmallSigma0(x), i) ==
      ((Bit32(x, Up32(i, 7)) != Bit32(x, Up32(i, 18))) != (i < 29 && Bit32(x, Up32(i, 3))))
  {
    hide Bit32, Up32, Three32, Sha256.Rotr, Sha256.SmallSigma0;
    Sha256SmallSigma0Shape(x);
    Sha256SmallRotated(x, 7, 7, i); Sha256SmallRotated(x, 18, 18, i); Shifted32By3(x, i);
    Xor32(Sha256.Rotr(x, 7), Sha256.Rotr(x, 18), x >> 3, i);
  }

  lemma Sha256SmallSigma1Shape(x: bv32)
    ensures Sha256.SmallSigma1(x) == Three32(Sha256.Rotr(x, 17), Sha256.Rotr(x, 19), x >> 10)
  {
    hide Sha256.Rotr;
  }

  lemma Sha256SmallSigma1Bits(x: bv32, i: bv32)
    requires i < 32
    ensures Bit32(Sha256.SmallSigma1(x), i) ==
      ((Bit32(x, Up32(i, 17)) != Bit32(x, Up32(i, 19))) != (i < 22 && Bit32(x, Up32(i, 10))))
  {
    hide Bit32, Up32, Three32, Sha256.Rotr, Sha256.SmallSigma1;
    Sha256SmallSigma1Shape(x);
    Sha256SmallRotated(x, 17, 17, i); Sha256SmallRotated(x, 19, 19, i); Shifted32By10(x, i);
    Xor32(Sha256.Rotr(x, 17), Sha256.Rotr(x, 19), x >> 10, i);
  }

  // ----- SHA-512 and SHA-384 -----

  /** A rotation to the right by `n` brings the bit `k` places further up, around the end, to each place. */
  lemma Sha512BigRotated(x: bv64, n: nat, k: bv64, i: bv64)
    requires (n, k) in {(14, 14), (18, 18), (28, 28), (34, 34), (39, 39), (41, 41)} && i < 64
    ensures Bit64(Sha512.Rotr(x, n), i) == Bit64(x, Up64(i, k))
  {
    match n
    case 14 => case 18 => case 28 => case 34 => case 39 => case _ =>
  }

  /** A rotation to the right by `n` brings the bit `k` places further up, around the end, to each place. */
  lemma Sha512SmallRotated(x: bv64, n: nat, k: bv64, i: bv64)
    requires (n, k) in {(1, 1), (8, 8), (19, 19), (61, 61)} && i < 64
    ensures Bit64(Sha512.Rotr(x, n), i) == Bit64(x, Up64(i, k))
  {
    match n
    case 1 => case 8 => case 19 => case _ =>
  }

  lemma Shifted64By7(x: bv64, i: bv64)
    requires i < 64
    ensures Bit64(x >> 7, i) == (i < 57 && Bit64(x, Up64(i, 7)))
  {
  }

  lemma Shifted64By6(x: bv64, i: bv64)
    requires i < 64
    ensures Bit64(x >> 6, i) == (i < 58 && Bit64(x, Up64(i, 6)))
  {
  }

  /** Each bit of x chooses between those of y and z. */
  lemma Sha512ChBits(x: bv64, y: bv64, z: bv64, i: bv64)
    requires i < 64
    ensures Bit64(Sha512.Ch(x, y, z), i) == if Bit64(x, i) then Bit64(y, i) else Bit64(z, i)
  {
    hide Bit64;
    Choice64(x, y, z, i);
  }

  /** The bit that at least two of the three words have. */
  lemma Sha512MajBits(x: bv64, y: bv64, z: bv64, i: bv64)
    requires i < 64
    ensures Bit64(Sha512.Maj(x, y, z), i) == if Bit64(x, i) == Bit64(y, i) then Bit64(x, i) else Bit64(z, i)
  {
    hide Bit64;
    Majority64(x, y, z, i);
  }

  lemma Sha512BigSigma0Shape(x: bv64)
    ensures Sha512.BigSigma0(x) == Three64(Sha512.Rotr(x, 28), Sha512.Rotr(x, 34), Sha512.Rotr(x, 39))
  {
    hide Sha512.Rotr;
  }

  lemma Sha512BigSigma0Bits(x: bv64, i: bv64)
    requires i < 64
    ensures Bit64(Sha512.BigSigma0(x), i) ==
      ((Bit64(x, Up64(i, 28)) != Bit64(x, Up64(i, 34))) != Bit64(x, Up64(i, 39)))
  {
    hide Bit64, Up64, Three64, Sha512.Rotr, Sha512.BigSigma0;
    Sha512BigSigma0Shape(x);
    Sha512BigRotated(x, 28, 28, i); Sha512BigRotated(x, 34, 34, i); Sha512BigRotated(x, 39, 39, i);
    Xor64(Sha512.Rotr(x, 28), Sha512.Rotr(x, 34), Sha512.Rotr(x, 39), i);
  }

  lemma Sha512BigSigma1Shape(x: bv64)
    ensures Sha512.BigSigma1(x) == Three64(Sha512.Rotr(x, 14), Sha512.Rotr(x, 18), Sha512.Rotr(x, 41))
  {
    hide Sha512.Rotr;
  }

  lemma Sha512BigSigma1Bits(x: bv64, i: bv64)
    requires i < 64
    ensures Bit64(Sha512.BigSigma1(x), i) ==
      ((Bit64(x, Up64(i, 14)) != Bit64(x, Up64(i, 18))) != Bit64(x, Up64(i, 41)))
  {
    hide Bit64, Up64, Three64, Sha512.Rotr, Sha512.BigSigma1;
    Sha512BigSigma1Shape(x);
    Sha512BigRotated(x, 14, 14, i); Sha512BigRotated(x, 18, 18, i); Sha512BigRotated(x, 41, 41, i);
    Xor64(Sha512.Rotr(x, 14), Sha512.Rotr(x, 18), Sha512.Rotr(x, 41), i);
  }

  lemma Sha512SmallSigma0Shape(x: bv64)
    ensures Sha512.SmallSigma0(x) == Three64(Sha512.Rotr(x, 1), Sha512.Rotr(x, 8), x >> 7)
  {
    hide Sha512.Rotr;
  }

  lemma Sha512SmallSigma0Bits(x: bv64, i: bv64)
    requires i < 64
    ensures Bit64(Sha512.SmallSigma0(x), i) ==
      ((Bit64(x, Up64(i, 1)) != Bit64(x, Up64(i, 8))) != (i < 57 && Bit64(x, Up64(i, 7))))
  {
    hide Bit64, Up64, Three64, Sha512.Rotr, Sha512.SmallSigma0;
    Sha512SmallSigma0Shape(x);
    Sha512SmallRotated(x, 1, 1, i); Sha512SmallRotated(x, 8, 8, i); Shifted64By7(x, i);
    Xor64(Sha512.Rotr(x, 1), Sha512.Rotr(x, 8), x >> 7, i);
  }

  lemma Sha512SmallSigma1Shape(x: bv64)
    ensures Sha512.SmallSigma1(x) == Three64(Sha512.Rotr(x, 19), Sha512.Rotr(x, 61), x >> 6)
  {
    hide Sha512.Rotr;
  }

  lemma Sha512SmallSigma1Bits(x: bv64, i: bv64)
    requires i < 64
    ensures Bit64(Sha512.SmallSigma1(x), i) ==
      ((Bit64(x, Up64(i, 19)) != Bit64(x, Up64(i, 61))) != (i < 58 && Bit64(x, Up64(i, 6))))
  {
    hide Bit64, Up64, Three64, Sha512.Rotr, Sha512.SmallSigma1;
    Sha512SmallSigma1Shape(x);
    Sha512SmallRotated(x, 19, 19, i); Sha512SmallRotated(x, 61, 61, i); Shifted64By6(x, i);
    Xor64(Sha512.Rotr(x, 19), Sha512.Rotr(x, 61), x >> 6, i);
  }
}
