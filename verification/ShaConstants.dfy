/**
 * The constants of Common/esif_sdk_sha.c against the way FIPS 180-4 derives them: fractional parts
 * of square and cube roots of the first primes (sections 4.2.2, 4.2.3, 5.3.3 to 5.3.5).
 */
module ShaConstants {
  import opened ShaBytes
  import opened ShaSpec
  import Sha1
  import Sha256
  import Sha512

  const PRIMES: seq<seq<nat>> := [
    [2, 3, 5, 7, 11, 13, 17, 19],
    [23, 29, 31, 37, 41, 43, 47, 53],
    [59, 61, 67, 71, 73, 79, 83, 89],
    [97, 101, 103, 107, 109, 113, 127, 131],
    [137, 139, 149, 151, 157, 163, 167, 173],
    [179, 181, 191, 193, 197, 199, 211, 223],
    [227, 229, 233, 239, 241, 251, 257, 263],
    [269, 271, 277, 281, 283, 293, 307, 311],
    [313, 317, 331, 337, 347, 349, 353, 359],
    [367, 373, 379, 383, 389, 397, 401, 409]]

  /** The primes in order. */
  function Prime(t: nat): nat
    requires t < 80
  {
    PRIMES[t / 8][t % 8]
  }

  /** `k` is the fraction of the cube root of `p`, cut off after the bits that `scale` has zeros. */
  ghost predicate IsCubeRootFraction(k: nat, p: nat, scale: nat) {
    k < scale && exists whole: nat :: CubeBetween(whole * scale + k, p * (scale * scale * scale))
  }

  predicate CubeBetween(x: nat, y: nat) {
    x * x * x <= y < (x + 1) * (x + 1) * (x + 1)
  }

  predicate SquareBetween(x: nat, y: nat) {
    x * x <= y < (x + 1) * (x + 1)
  }

  const U32_SPAN: nat := 0x1_0000_0000

  /** The whole part of the cube root of a prime up to 409. */
  function Whole(p: nat): nat {
    if p < 8 then 1 else if p < 27 then 2 else if p < 64 then 3 else if p < 125 then 4
    else if p < 216 then 5 else if p < 343 then 6 else 7
  }

  // ----- SHA-256 -----

  predicate Root32(k: bv32, p: nat) {
    k as nat < U32_SPAN && CubeBetween(Whole(p) * U32_SPAN + k as nat, p * (U32_SPAN * U32_SPAN * U32_SPAN))
  }

  /** Four constants of row `r` of the table. */
  predicate Half32(r: nat, c: nat)
    requires r < 8 && c <= 4
  {
    var k, p := Sha256.K_ROWS[r], PRIMES[r];
    && |k| == |p| == 8
    && Root32(k[c], p[c]) && Root32(k[c + 1], p[c + 1]) && Root32(k[c + 2], p[c + 2]) && Root32(k[c + 3], p[c + 3])
  }

  lemma Left32At0() ensures Half32(0, 0) {}
  lemma Right32At0() ensures Half32(0, 4) {}
  lemma Left32At1() ensures Half32(1, 0) {}
  lemma Right32At1() ensures Half32(1, 4) {}
  lemma Left32At2() ensures Half32(2, 0) {}
  lemma Right32At2() ensures Half32(2, 4) {}
  lemma Left32At3() ensures Half32(3, 0) {}
  lemma Right32At3() ensures Half32(3, 4) {}
  lemma Left32At4() ensures Half32(4, 0) {}
  lemma Right32At4() ensures Half32(4, 4) {}
  lemma Left32At5() ensures Half32(5, 0) {}
  lemma Right32At5() ensures Half32(5, 4) {}
  lemma Left32At6() ensures Half32(6, 0) {}
  lemma Right32At6() ensures Half32(6, 4) {}
  lemma Left32At7() ensures Half32(7, 0) {}
  lemma Right32At7() ensures Half32(7, 4) {}

  lemma AnyHalf32(r: nat, c: nat)
    requires r < 8 && (c == 0 || c == 4)
    ensures Half32(r, c)
  {
    hide Half32;
    if c == 0 {
      Left32At0(); Left32At1(); Left32At2(); Left32At3();
      Left32At4(); Left32At5(); Left32At6(); Left32At7();
    } else {
      Right32At0(); Right32At1(); Right32At2(); Right32At3();
      Right32At4(); Right32At5(); Right32At6(); Right32At7();
    }
  }

  /** Section 4.2.2. */
  lemma Sha256Constants(t: nat)
    requires t < 64
    ensures IsCubeRootFraction(Sha256.K(t) as nat, Prime(t), U32_SPAN)
  {
    hide Root32;
    AnyHalf32(t / 8, t % 8 / 4 * 4);
    Root32Means(Sha256.K(t), Prime(t));
  }

  lemma Root32Means(k: bv32, p: nat)
    requires Root32(k, p)
    ensures IsCubeRootFraction(k as nat, p, U32_SPAN)
  {
    hide CubeBetween;
  }

  // ----- SHA-512 -----

  predicate Root64(k: bv64, p: nat) {
    k as nat < U64_SPAN && CubeBetween(Whole(p) * U64_SPAN + k as nat, p * (U64_SPAN * U64_SPAN * U64_SPAN))
  }

  /** Four constants of row `r` of the table. */
  predicate Half64(r: nat, c: nat)
    requires r < 10 && c <= 4
  {
    var k, p := Sha512.K_ROWS[r], PRIMES[r];
    && |k| == |p| == 8
    && Root64(k[c], p[c]) && Root64(k[c + 1], p[c + 1]) && Root64(k[c + 2], p[c + 2]) && Root64(k[c + 3], p[c + 3])
  }

  lemma Left64At0() ensures Half64(0, 0) {}
  lemma Right64At0() ensures Half64(0, 4) {}
  lemma Left64At1() ensures Half64(1, 0) {}
  lemma Right64At1() ensures Half64(1, 4) {}
  lemma Left64At2() ensures Half64(2, 0) {}
  lemma Right64At2() ensures Half64(2, 4) {}
  lemma Left64At3() ensures Half64(3, 0) {}
  lemma Right64At3() ensures Half64(3, 4) {}
  lemma Left64At4() ensures Half64(4, 0) {}
  lemma Right64At4() ensures Half64(4, 4) {}
  lemma Left64At5() ensures Half64(5, 0) {}
  lemma Right64At5() ensures Half64(5, 4) {}
  lemma Left64At6() ensures Half64(6, 0) {}
  lemma Right64At6() ensures Half64(6, 4) {}
  lemma Left64At7() ensures Half64(7, 0) {}
  lemma Right64At7() ensures Half64(7, 4) {}
  lemma Left64At8() ensures Half64(8, 0) {}
  lemma Right64At8() ensures Half64(8, 4) {}
  lemma Left64At9() ensures Half64(9, 0) {}
  lemma Right64At9() ensures Half64(9, 4) {}

  lemma AnyHalf64(r: nat, c: nat)
    requires r < 10 && (c == 0 || c == 4)
    ensures Half64(r, c)
  {
    hide Half64;
    if c == 0 {
      Left64At0(); Left64At1(); Left64At2(); Left64At3(); Left64At4();
      Left64At5(); Left64At6(); Left64At7(); Left64At8(); Left64At9();
    } else {
      Right64At0(); Right64At1(); Right64At2(); Right64At3(); Right64At4();
      Right64At5(); Right64At6(); Right64At7(); Right64At8(); Right64At9();
    }
  }

  /** Section 4.2.3. */
  lemma Sha512Constants(t: nat)
    requires t < 80
    ensures IsCubeRootFraction(Sha512.K(t) as nat, Prime(t), U64_SPAN)
  {
    hide Root64;
    AnyHalf64(t / 8, t % 8 / 4 * 4);
    Root64Means(Sha512.K(t), Prime(t));
  }

  lemma Root64Means(k: bv64, p: nat)
    requires Root64(k, p)
    ensures IsCubeRootFraction(k as nat, p, U64_SPAN)
  {
    hide CubeBetween;
  }

  // ----- square roots -----

  /** Section 4.2.1: the constants are 2^30 times the square roots of 2, 3, 5 and 10, without fractions. */
  lemma Sha1Constants(t: nat)
    requires t < 80
    ensures SquareBetween(Sha1.K(t) as nat, [2, 3, 5, 10][t / 20] * 0x1000_0000_0000_0000)
  {
    assert SquareBetween(0x5a827999, 2 * 0x1000_0000_0000_0000);
    assert SquareBetween(0x6ed9eba1, 3 * 0x1000_0000_0000_0000);
    assert SquareBetween(0x8f1bbcdc, 5 * 0x1000_0000_0000_0000);
    assert SquareBetween(0xca62c1d6, 10 * 0x1000_0000_0000_0000);
  }

  /** `k` is the fraction of the square root of `p`, whose whole part is `whole`. */
  predicate RootFraction(k: nat, p: nat, whole: nat, scale: nat) {
    k < scale && SquareBetween(whole * scale + k, p * (scale * scale))
  }

  /** Section 5.3.3: the first eight primes. */
  lemma Sha256Start()
    ensures var v := InitialValue(SHA256).v256;
      && RootFraction(v.a as nat, 2, 1, U32_SPAN) && RootFraction(v.b as nat, 3, 1, U32_SPAN)
      && RootFraction(v.c as nat, 5, 2, U32_SPAN) && RootFraction(v.d as nat, 7, 2, U32_SPAN)
      && RootFraction(v.e as nat, 11, 3, U32_SPAN) && RootFraction(v.f as nat, 13, 3, U32_SPAN)
      && RootFraction(v.g as nat, 17, 4, U32_SPAN) && RootFraction(v.h as nat, 19, 4, U32_SPAN)
  {
  }

  /** Section 5.3.4: the ninth to the sixteenth prime. */
  lemma Sha384Start()
    ensures var v := InitialValue(SHA384).v512;
      && RootFraction(v.a as nat, 23, 4, U64_SPAN) && RootFraction(v.b as nat, 29, 5, U64_SPAN)
      && RootFraction(v.c as nat, 31, 5, U64_SPAN) && RootFraction(v.d as nat, 37, 6, U64_SPAN)
      && RootFraction(v.e as nat, 41, 6, U64_SPAN) && RootFraction(v.f as nat, 43, 6, U64_SPAN)
      && RootFraction(v.g as nat, 47, 6, U64_SPAN) && RootFraction(v.h as nat, 53, 7, U64_SPAN)
  {
  }

  /** Section 5.3.5: the first eight primes. */
  lemma Sha512Start()
    ensures var v := InitialValue(SHA512).v512;
      && RootFraction(v.a as nat, 2, 1, U64_SPAN) && RootFraction(v.b as nat, 3, 1, U64_SPAN)
      && RootFraction(v.c as nat, 5, 2, U64_SPAN) && RootFraction(v.d as nat, 7, 2, U64_SPAN)
      && RootFraction(v.e as nat, 11, 3, U64_SPAN) && RootFraction(v.f as nat, 13, 3, U64_SPAN)
      && RootFraction(v.g as nat, 17, 4, U64_SPAN) && RootFraction(v.h as nat, 19, 4, U64_SPAN)
  {
  }
}
