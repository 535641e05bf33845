/** The message of the one-block examples for FIPS 180-4, padded. */
module ShaExample {
  import opened ShaBytes
  import opened ShaSpec

  /** "abc" */
  const ABC: seq<bv8> := [0x61, 0x62, 0x63]

  lemma {:induction false} ZeroBytes(n: nat)
    ensures BigEndian(0, n) == Zeros(n)
  {
    if n > 0 {
      ZeroBytes(n - 1);
    }
  }

  lemma LengthIs(n: nat)
    requires n > 0
    ensures BigEndian(24, n) == Zeros(n - 1) + [24]
  {
    ZeroBytes(n - 1);
    assert BigEndian(24, n) == BigEndian(0, n - 1) + [24];
  }

  lemma PadUnfolds(alg: Alg)
    ensures Gap(alg, 3) == BlockBytes(alg) - LengthBytes(alg) - 4
    ensures Pad(alg, ABC) == ABC + [0x80] + Zeros(Gap(alg, 3)) + BigEndian(24, LengthBytes(alg))
  {
    hide BigEndian, Zeros;
  }

  lemma Together(a: seq<bv8>, b: seq<bv8>, c: seq<bv8>)
    requires a == Zeros(|a|) && b == Zeros(|b|) && c == Zeros(|a| + |b|)
    ensures ABC + [0x80] + a + (b + [24]) == [0x61, 0x62, 0x63, 0x80] + c + [24]
  {
    assert ABC + [0x80] == [0x61, 0x62, 0x63, 0x80];
    assert a + b == c;
    assert ABC + [0x80] + a + (b + [24]) == ABC + [0x80] + (a + b) + [24];
  }

  /** The message, the end mark, zeros, and 24 bits of length. */
  lemma PaddedIs(alg: Alg)
    ensures Pad(alg, ABC) == [0x61, 0x62, 0x63, 0x80] + Zeros(BlockBytes(alg) - 5) + [24]
  {
    hide Zeros, Gap, Pad, BigEndian;
    PadUnfolds(alg);
    LengthIs(LengthBytes(alg));
    var gap, rest := Gap(alg, 3), LengthBytes(alg) - 1;
    Together(Zeros(gap), Zeros(rest), Zeros(gap + rest));
  }

  lemma OneBlock(alg: Alg, p: seq<bv8>)
    requires |p| == BlockBytes(alg)
    ensures Hash(alg, p) == Step(alg, InitialValue(alg), p)
  {
    assert [] + p == p && Hash(alg, []) == InitialValue(alg);
    hide Hash, Step, InitialValue;
    HashStep(alg, [], p);
  }
}
