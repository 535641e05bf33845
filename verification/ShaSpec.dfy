/** The hash functions SHA-1, SHA-256, SHA-384 and SHA-512 of FIPS 180-4, on byte strings. */
module ShaSpec {
  import opened ShaBytes
  import Sha1
  import Sha256
  import Sha512

  datatype Alg = SHA1 | SHA256 | SHA384 | SHA512

  function HashBytes(alg: Alg): nat {
    match alg
    case SHA1 => 20
    case SHA256 => 32
    case SHA384 => 48
    case SHA512 => 64
  }

  function BlockBytes(alg: Alg): nat {
    if alg == SHA1 || alg == SHA256 then 64 else 128
  }

  /** Bytes of the length field at the end of the padded message. */
  function LengthBytes(alg: Alg): (n: nat)
    ensures 0 < n < BlockBytes(alg)
  {
    if alg == SHA1 || alg == SHA256 then 8 else 16
  }

  /** A hash value. */
  datatype Value = V1(v1: Sha1.Vars) | V256(v256: Sha256.Vars) | V512(v512: Sha512.Vars)

  predicate Fits(alg: Alg, v: Value) {
    match alg
    case SHA1 => v.V1?
    case SHA256 => v.V256?
    case _ => v.V512?
  }

  /** Section 5.3. */
  function InitialValue(alg: Alg): (v: Value)
    ensures Fits(alg, v)
  {
    match alg
    case SHA1 => V1(Sha1.Vars(0x67452301, 0xefcdab89, 0x98badcfe, 0x10325476, 0xc3d2e1f0))
    case SHA256 =>
      V256(Sha256.Vars(0x6a09e667, 0xbb67ae85, 0x3c6ef372, 0xa54ff53a, 0x510e527f, 0x9b05688c, 0x1f83d9ab, 0x5be0cd19))
    case SHA384 =>
      V512(Sha512.Vars(0xcbbb9d5dc1059ed8, 0x629a292a367cd507, 0x9159015a3070dd17, 0x152fecd8f70e5939,
                       0x67332667ffc00b31, 0x8eb44a8768581511, 0xdb0c2e0d64f98fa7, 0x47b5481dbefa4fa4))
    case SHA512 =>
      V512(Sha512.Vars(0x6a09e667f3bcc908, 0xbb67ae8584caa73b, 0x3c6ef372fe94f82b, 0xa54ff53a5f1d36f1,
                       0x510e527fade682d1, 0x9b05688c2b3e6c1f, 0x1f83d9abfb41bd6b, 0x5be0cd19137e2179))
  }

  function Step(alg: Alg, v: Value, block: seq<bv8>): (r: Value)
    requires Fits(alg, v) && |block| == BlockBytes(alg)
    ensures Fits(alg, r)
  {
    match alg
    case SHA1 => V1(Sha1.Compress(v.v1, Sha1.Block(block)))
    case SHA256 => V256(Sha256.Compress(v.v256, Sha256.Block(block)))
    case _ => V512(Sha512.Compress(v.v512, Sha512.Block(block)))
  }

  /** The hash value after the blocks of `m`, one after the other. */
  function Hash(alg: Alg, m: seq<bv8>): (v: Value)
    requires |m| % BlockBytes(alg) == 0
    ensures Fits(alg, v)
  {
    if m == [] then InitialValue(alg)
    else
      var n := |m| - BlockBytes(alg);
      Step(alg, Hash(alg, m[..n]), m[n..])
  }

  lemma HashStep(alg: Alg, m: seq<bv8>, block: seq<bv8>)
    requires |m| % BlockBytes(alg) == 0 && |block| == BlockBytes(alg)
    ensures |m + block| % BlockBytes(alg) == 0
    ensures Hash(alg, m + block) == Step(alg, Hash(alg, m), block)
  {
    hide Step, InitialValue;
    assert (m + block)[..|m|] == m && (m + block)[|m|..] == block;
  }

  function Zeros(n: nat): (z: seq<bv8>)
    ensures |z| == n && forall i :: 0 <= i < n ==> z[i] == 0
  {
    seq(n, _ => 0)
  }

  /** How many zero bytes the padding of a message of `len` bytes has. */
  function Gap(alg: Alg, len: nat): nat {
    (BlockBytes(alg) - (len + 1 + LengthBytes(alg)) % BlockBytes(alg)) % BlockBytes(alg)
  }

  /** It is the least number that completes the last block (sections 5.1.1 and 5.1.2). */
  lemma GapIsLeast(alg: Alg, len: nat, k: nat)
    ensures (len + 1 + Gap(alg, len) + LengthBytes(alg)) % BlockBytes(alg) == 0
    ensures (len + 1 + k + LengthBytes(alg)) % BlockBytes(alg) == 0 ==> Gap(alg, len) <= k
  {
    LeastFill(len + 1 + LengthBytes(alg), BlockBytes(alg), k);
  }

  lemma LeastFill(x: nat, bs: nat, k: nat)
    requires bs > 0
    ensures var gap := (bs - x % bs) % bs;
      (x + gap) % bs == 0 && ((x + k) % bs == 0 ==> gap <= k)
  {
    var q, r := x / bs, x % bs;
    if r == 0 {
      DivUnique(bs, bs, 1, 0);
    } else {
      DivUnique(bs - r, bs, 0, bs - r);
      NextMultiple(x, bs);
      if k < bs - r {
        DivUnique(x + k, bs, q, r + k);
      }
    }
  }

  lemma NextMultiple(x: nat, bs: nat)
    requires bs > 0
    ensures (x + (bs - x % bs)) % bs == 0
  {
    assert bs * (x / bs + 1) == bs * (x / bs) + bs;
    DivUnique(x + (bs - x % bs), bs, x / bs + 1, 0);
  }

  /** The padded message: a 1 bit, zero bits, and the length in bits. */
  function Pad(alg: Alg, m: seq<bv8>): (p: seq<bv8>)
    ensures |p| % BlockBytes(alg) == 0
  {
    GapIsLeast(alg, |m|, 0);
    m + [0x80] + Zeros(Gap(alg, |m|)) + BigEndian(8 * |m|, LengthBytes(alg))
  }

  /** The words of a hash value as bytes, truncated to the size of the digest. */
  function Output(alg: Alg, v: Value): (b: seq<bv8>)
    requires Fits(alg, v)
    ensures |b| == HashBytes(alg)
  {
    match alg
    case SHA1 =>
      var w := v.v1;
      Bytes32(w.a) + Bytes32(w.b) + Bytes32(w.c) + Bytes32(w.d) + Bytes32(w.e)
    case SHA256 =>
      var w := v.v256;
      Bytes32(w.a) + Bytes32(w.b) + Bytes32(w.c) + Bytes32(w.d)
      + Bytes32(w.e) + Bytes32(w.f) + Bytes32(w.g) + Bytes32(w.h)
    case _ =>
      var w := v.v512;
      (Bytes64(w.a) + Bytes64(w.b) + Bytes64(w.c) + Bytes64(w.d)
       + Bytes64(w.e) + Bytes64(w.f) + Bytes64(w.g) + Bytes64(w.h))[..HashBytes(alg)]
  }

  function Digest(alg: Alg, m: seq<bv8>): (d: seq<bv8>)
    ensures |d| == HashBytes(alg)
  {
    Output(alg, Hash(alg, Pad(alg, m)))
  }

  /** The padding when it fits into the last, incomplete block, which holds the message from `n` on. */
  lemma PadInOne(alg: Alg, m: seq<bv8>, n: nat)
    requires n <= |m| && n % BlockBytes(alg) == 0 && |m| - n < BlockBytes(alg) - LengthBytes(alg)
    ensures Pad(alg, m) == m[..n] + (m[n..] + [0x80] + Zeros(BlockBytes(alg) - LengthBytes(alg) - 1 - (|m| - n))
                                     + BigEndian(8 * |m|, LengthBytes(alg)))
  {
    var gap := BlockBytes(alg) - LengthBytes(alg) - 1 - (|m| - n);
    assert Gap(alg, |m|) == gap by { GapFor(alg, n, |m| - n); }
    hide Pad, Gap, Zeros, BigEndian;
    PadUnfold(alg, m, gap);
    Regroup(m, n, Zeros(gap), BigEndian(8 * |m|, LengthBytes(alg)));
  }

  /** The padding when it takes a second block. */
  lemma PadInTwo(alg: Alg, m: seq<bv8>, n: nat)
    requires n <= |m| && n % BlockBytes(alg) == 0
    requires BlockBytes(alg) - LengthBytes(alg) <= |m| - n < BlockBytes(alg)
    ensures Pad(alg, m) == m[..n] + (m[n..] + [0x80] + Zeros(BlockBytes(alg) - 1 - (|m| - n)))
                           + (Zeros(BlockBytes(alg) - LengthBytes(alg)) + BigEndian(8 * |m|, LengthBytes(alg)))
  {
    var y, z := BlockBytes(alg) - 1 - (|m| - n), BlockBytes(alg) - LengthBytes(alg);
    assert Gap(alg, |m|) == y + z by { GapFor(alg, n, |m| - n); }
    hide Pad, Gap, Zeros, BigEndian;
    PadUnfold(alg, m, y + z);
    ZerosAdd(y, z);
    RegroupTwo(m, n, Zeros(y), Zeros(z), BigEndian(8 * |m|, LengthBytes(alg)));
  }

  lemma PadUnfold(alg: Alg, m: seq<bv8>, gap: nat)
    requires gap == Gap(alg, |m|)
    ensures Pad(alg, m) == m + [0x80] + Zeros(gap) + BigEndian(8 * |m|, LengthBytes(alg))
  {
    hide BigEndian, Zeros, Gap, BlockBytes, LengthBytes;
  }

  lemma ZerosAdd(a: nat, b: nat)
    ensures Zeros(a + b) == Zeros(a) + Zeros(b)
  {
  }

  lemma Regroup(m: seq<bv8>, n: nat, z: seq<bv8>, length: seq<bv8>)
    requires n <= |m|
    ensures m + [0x80] + z + length == m[..n] + (m[n..] + [0x80] + z + length)
  {
  }

  lemma RegroupTwo(m: seq<bv8>, n: nat, y: seq<bv8>, z: seq<bv8>, length: seq<bv8>)
    requires n <= |m|
    ensures m + [0x80] + (y + z) + length == m[..n] + (m[n..] + [0x80] + y) + (z + length)
  {
  }

  lemma GapFor(alg: Alg, n: nat, u: nat)
    requires n % BlockBytes(alg) == 0 && u < BlockBytes(alg)
    ensures var bs, ls := BlockBytes(alg), LengthBytes(alg);
      Gap(alg, n + u) == if u < bs - ls then bs - ls - 1 - u else 2 * bs - ls - 1 - u
  {
    var bs, y := BlockBytes(alg), u + 1 + LengthBytes(alg);
    GapOf(n, y, bs);
  }

  lemma GapOf(n: nat, y: nat, bs: nat)
    requires bs > 0 && n % bs == 0 && 0 < y <= 2 * bs
    ensures (bs - (n + y) % bs) % bs == if y <= bs then bs - y else 2 * bs - y
  {
    var q := n / bs;
    assert n == bs * q;
    assert bs * (q + 1) == bs * q + bs && bs * (q + 2) == bs * q + 2 * bs;
    if y < bs {
      DivUnique(n + y, bs, q, y);
      DivUnique(bs - y, bs, 0, bs - y);
    } else if y < 2 * bs {
      DivUnique(n + y, bs, q + 1, y - bs);
      var g := bs - (y - bs);
      if g == bs { DivUnique(g, bs, 1, 0); } else { DivUnique(g, bs, 0, g); }
    } else {
      DivUnique(n + y, bs, q + 2, 0);
      DivUnique(bs, bs, 1, 0);
    }
  }

  // ----- the two words of the length -----

  function LowBits(len: nat): nat { (8 * len) % U64_SPAN }

  function HighBits(len: nat): nat { (8 * len / U64_SPAN) % U64_SPAN }

  /** Adding to the low word with a carry into the high word. */
  lemma AddBits(len: nat, more: nat)
    requires 8 * more < U64_SPAN
    ensures var low := (LowBits(len) + 8 * more) % U64_SPAN;
      && low == LowBits(len + more)
      && HighBits(len + more) == (HighBits(len) + if low < LowBits(len) then 1 else 0) % U64_SPAN
  {
    var x, d := 8 * len, 8 * more;
    assert x + d == 8 * (len + more);
    var q, r := x / U64_SPAN, x % U64_SPAN;
    if r + d < U64_SPAN {
      DivUnique(x + d, U64_SPAN, q, r + d);
    } else {
      DivUnique(x + d, U64_SPAN, q + 1, r + d - U64_SPAN);
    }
  }

  lemma LengthField(alg: Alg, len: nat)
    ensures BigEndian(8 * len, LengthBytes(alg)) ==
            (if LengthBytes(alg) == 16 then BigEndian(HighBits(len), 8) else []) + BigEndian(LowBits(len), 8)
  {
    hide BigEndian;
    PowEight();
    CutOff(8 * len, 8);
    if LengthBytes(alg) == 16 {
      BigEndianSplit(8 * len, 8, 8);
      UpperEight(8 * len);
      CutOff(8 * len / U64_SPAN, 8);
    }
  }
}
