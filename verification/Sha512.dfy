/**
 * The compression function of SHA-512 and SHA-384: its definition in sections 4.1.3 and 6.4.2 of FIPS 180-4, and
 * esif_sha512_transform of Common/esif_sdk_sha.c, which works in place on arrays, proved equal to it.
 */
module Sha512 {
  import opened ShaBytes

  const ROUNDS := 80

  const K_ROWS: seq<seq<bv64>> := [
    [0x428a2f98d728ae22, 0x7137449123ef65cd, 0xb5c0fbcfec4d3b2f, 0xe9b5dba58189dbbc,
     0x3956c25bf348b538, 0x59f111f1b605d019, 0x923f82a4af194f9b, 0xab1c5ed5da6d8118],
    [0xd807aa98a3030242, 0x12835b0145706fbe, 0x243185be4ee4b28c, 0x550c7dc3d5ffb4e2,
     0x72be5d74f27b896f, 0x80deb1fe3b1696b1, 0x9bdc06a725c71235, 0xc19bf174cf692694],
    [0xe49b69c19ef14ad2, 0xefbe4786384f25e3, 0x0fc19dc68b8cd5b5, 0x240ca1cc77ac9c65,
     0x2de92c6f592b0275, 0x4a7484aa6ea6e483, 0x5cb0a9dcbd41fbd4, 0x76f988da831153b5],
    [0x983e5152ee66dfab, 0xa831c66d2db43210, 0xb00327c898fb213f, 0xbf597fc7beef0ee4,
     0xc6e00bf33da88fc2, 0xd5a79147930aa725, 0x06ca6351e003826f, 0x142929670a0e6e70],
    [0x27b70a8546d22ffc, 0x2e1b21385c26c926, 0x4d2c6dfc5ac42aed, 0x53380d139d95b3df,
     0x650a73548baf63de, 0x766a0abb3c77b2a8, 0x81c2c92e47edaee6, 0x92722c851482353b],
    [0xa2bfe8a14cf10364, 0xa81a664bbc423001, 0xc24b8b70d0f89791, 0xc76c51a30654be30,
     0xd192e819d6ef5218, 0xd69906245565a910, 0xf40e35855771202a, 0x106aa07032bbd1b8],
    [0x19a4c116b8d2d0c8, 0x1e376c085141ab53, 0x2748774cdf8eeb99, 0x34b0bcb5e19b48a8,
     0x391c0cb3c5c95a63, 0x4ed8aa4ae3418acb, 0x5b9cca4f7763e373, 0x682e6ff3d6b2b8a3],
    [0x748f82ee5defb2fc, 0x78a5636f43172f60, 0x84c87814a1f0ab72, 0x8cc702081a6439ec,
     0x90befffa23631e28, 0xa4506cebde82bde9, 0xbef9a3f7b2c67915, 0xc67178f2e372532b],
    [0xca273eceea26619c, 0xd186b8c721c0c207, 0xeada7dd6cde0eb1e, 0xf57d4f7fee6ed178,
     0x06f067aa72176fba, 0x0a637dc5a2c898a6, 0x113f9804bef90dae, 0x1b710b35131c471b],
    [0x28db77f523047d84, 0x32caab7b40c72493, 0x3c9ebe0a15c9bebc, 0x431d67c49c100d4c,
     0x4cc5d4becb3e42b6, 0x597f299cfc657e2a, 0x5fcb6fab3ad6faec, 0x6c44198c4a475817]]

  function K(t: nat): bv64
    requires t < ROUNDS
  {
    K_ROWS[t / 8][t % 8]
  }

  // ----- FIPS 180-4 -----

  function Rotr(x: bv64, n: nat): bv64
    requires 0 < n < 64
  {
    (x >> n) | (x << (64 - n))
  }

  function Ch(x: bv64, y: bv64, z: bv64): bv64 { (x & y) ^ (!x & z) }

  function Maj(x: bv64, y: bv64, z: bv64): bv64 { (x & y) ^ (x & z) ^ (y & z) }

  function BigSigma0(x: bv64): bv64 { Rotr(x, 28) ^ Rotr(x, 34) ^ Rotr(x, 39) }

  function BigSigma1(x: bv64): bv64 { Rotr(x, 14) ^ Rotr(x, 18) ^ Rotr(x, 41) }

  function SmallSigma0(x: bv64): bv64 { Rotr(x, 1) ^ Rotr(x, 8) ^ (x >> 7) }

  function SmallSigma1(x: bv64): bv64 { Rotr(x, 19) ^ Rotr(x, 61) ^ (x >> 6) }

  /** The message schedule of the block `m`. */
  function W(m: seq<bv64>, t: nat): bv64
    requires |m| == 16 && t < ROUNDS
  {
    if t < 16 then m[t]
    else Sum4(SmallSigma1(W(m, t - 2)), W(m, t - 7), SmallSigma0(W(m, t - 15)), W(m, t - 16))
  }

  // Additions are modulo 2^64.

  function Plus(a: bv64, b: bv64): bv64 { a + b }

  function Sum4(a: bv64, b: bv64, c: bv64, d: bv64): bv64 { a + b + c + d }

  function Sum5(a: bv64, b: bv64, c: bv64, d: bv64, e: bv64): bv64 { a + b + c + d + e }

  /** The working variables. */
  datatype Vars = Vars(a: bv64, b: bv64, c: bv64, d: bv64, e: bv64, f: bv64, g: bv64, h: bv64)

  function T1(v: Vars, k: bv64, w: bv64): bv64 { Sum5(v.h, BigSigma1(v.e), Ch(v.e, v.f, v.g), k, w) }

  function T2(v: Vars): bv64 { Plus(BigSigma0(v.a), Maj(v.a, v.b, v.c)) }

  function Round(v: Vars, k: bv64, w: bv64): Vars {
    Vars(Plus(T1(v, k, w), T2(v)), v.a, v.b, v.c, Plus(v.d, T1(v, k, w)), v.e, v.f, v.g)
  }

  /** The working variables after `t` rounds. */
  function After(h: Vars, m: seq<bv64>, t: nat): Vars
    requires |m| == 16 && t <= ROUNDS
  {
    if t == 0 then h else Round(After(h, m, t - 1), K(t - 1), W(m, t - 1))
  }

  /** The hash value that follows `h` when the block `m` is processed. */
  function Compress(h: Vars, m: seq<bv64>): Vars
    requires |m| == 16
  {
    var v := After(h, m, ROUNDS);
    Vars(Plus(h.a, v.a), Plus(h.b, v.b), Plus(h.c, v.c), Plus(h.d, v.d),
         Plus(h.e, v.e), Plus(h.f, v.f), Plus(h.g, v.g), Plus(h.h, v.h))
  }

  /** A block of 128 bytes as sixteen words. */
  function Block(b: seq<bv8>): (m: seq<bv64>)
    requires |b| >= 128
    ensures |m| == 16 && forall i :: 0 <= i < 16 ==> m[i] == Word64(b, i)
  {
    seq(16, i requires 0 <= i < 16 => Word64(b, i))
  }

  // ----- the transform in place -----

  /** Eight words in an array, in order. */
  ghost predicate Holds(chunk: seq<bv64>, v: Vars) {
    && |chunk| == 8
    && chunk[0] == v.a && chunk[1] == v.b && chunk[2] == v.c && chunk[3] == v.d
    && chunk[4] == v.e && chunk[5] == v.f && chunk[6] == v.g && chunk[7] == v.h
  }

  /** The hash value as the machine keeps it in the first bytes of `hash`. */
  function Loaded(hash: seq<bv8>): Vars
    requires |hash| >= 64
  {
    Vars(Load64(hash, 0), Load64(hash, 1), Load64(hash, 2), Load64(hash, 3),
         Load64(hash, 4), Load64(hash, 5), Load64(hash, 6), Load64(hash, 7))
  }

  /** The loop that reads the block and the one that extends it. */
  method Schedule(block: array<bv8>) returns (rounds: array<bv64>)
    requires block.Length >= 128
    ensures fresh(rounds) && rounds.Length == ROUNDS
    ensures forall t :: 0 <= t < ROUNDS ==> rounds[t] == W(Block(block[..]), t)
  {
    hide Load64, Word64, Reorder64, SmallSigma0, SmallSigma1, Sum4, Block, W;
    ghost var m := Block(block[..]);
    rounds := new bv64[ROUNDS];
    var i := 0;
    while i < 16
      invariant i <= 16 && block[..] == old(block[..])
      invariant forall t :: 0 <= t < i ==> rounds[t] == W(m, t)
    {
      ReorderedLoad64(block[..], i);
      FirstWords(m, i);
      rounds[i] := Reorder64(Load64(block[..], i));
      i := i + 1;
    }
    while i < ROUNDS
      invariant 16 <= i <= ROUNDS && block[..] == old(block[..])
      invariant forall t :: 0 <= t < i ==> rounds[t] == W(m, t)
    {
      LaterWords(m, i);
      var s0 := SmallSigma0(rounds[i - 15]);
      var s1 := SmallSigma1(rounds[i - 2]);
      SumReordered(rounds[i - 16], s0, rounds[i - 7], s1);
      rounds[i] := Sum4(rounds[i - 16], s0, rounds[i - 7], s1);
      i := i + 1;
    }
  }

  lemma FirstWords(m: seq<bv64>, t: nat)
    requires |m| == 16 && t < 16
    ensures W(m, t) == m[t]
  {
  }

  lemma LaterWords(m: seq<bv64>, t: nat)
    requires |m| == 16 && 16 <= t < ROUNDS
    ensures W(m, t) == Sum4(SmallSigma1(W(m, t - 2)), W(m, t - 7), SmallSigma0(W(m, t - 15)), W(m, t - 16))
  {
  }

  lemma SumReordered(w16: bv64, s0: bv64, w7: bv64, s1: bv64)
    ensures Sum4(w16, s0, w7, s1) == Sum4(s1, w7, s0, w16)
  {
  }

  /** The loop over the rounds. */
  method Rounds(chunk: array<bv64>, rounds: array<bv64>, ghost h: Vars, ghost m: seq<bv64>)
    requires |m| == 16 && chunk != rounds && rounds.Length == ROUNDS && Holds(chunk[..], h)
    requires forall t :: 0 <= t < ROUNDS ==> rounds[t] == W(m, t)
    modifies chunk
    ensures Holds(chunk[..], After(h, m, ROUNDS))
  {
    hide W, After, Round, K, Holds;
    AfterNone(h, m);
    for i := 0 to ROUNDS
      invariant Holds(chunk[..], After(h, m, i))
    {
      AfterOne(h, m, i);
      OneRound(chunk, K(i), rounds[i], After(h, m, i));
    }
  }

  lemma AfterNone(h: Vars, m: seq<bv64>)
    requires |m| == 16
    ensures After(h, m, 0) == h
  {
  }

  lemma AfterOne(h: Vars, m: seq<bv64>, t: nat)
    requires |m| == 16 && t < ROUNDS
    ensures After(h, m, t + 1) == Round(After(h, m, t), K(t), W(m, t))
  {
  }

  /** The body of that loop: the variables move up one place, last to first. */
  method OneRound(chunk: array<bv64>, k: bv64, w: bv64, ghost v: Vars)
    requires Holds(chunk[..], v)
    modifies chunk
    ensures Holds(chunk[..], Round(v, k, w))
  {
    hide BigSigma0, BigSigma1, Ch, Maj, Sum5, Plus;
    var bigS1 := BigSigma1(chunk[4]);
    var ch := Ch(chunk[4], chunk[5], chunk[6]);
    var bigS0 := BigSigma0(chunk[0]);
    var maj := Maj(chunk[0], chunk[1], chunk[2]);
    var temp1 := Sum5(chunk[7], bigS1, ch, k, w);
    var temp2 := Plus(bigS0, maj);
    assert temp1 == T1(v, k, w) && temp2 == T2(v);
    hide T1, T2;
    chunk[7] := chunk[6];
    chunk[6] := chunk[5];
    chunk[5] := chunk[4];
    chunk[4] := Plus(chunk[3], temp1);
    chunk[3] := chunk[2];
    chunk[2] := chunk[1];
    chunk[1] := chunk[0];
    chunk[0] := Plus(temp1, temp2);
  }

  /** The whole transform. */
  method Transform(hash: array<bv8>, block: array<bv8>)
    requires hash.Length >= 64 && block.Length >= 128 && hash != block
    modifies hash
    ensures Loaded(hash[..]) == Compress(Loaded(old(hash[..])), Block(block[..]))
    ensures hash[64..] == old(hash[64..])
  {
    hide Load64, Block, After, W;
    ghost var h, m := Loaded(hash[..]), Block(block[..]);
    ghost var was := hash[..];
    var chunk := new bv64[8];
    for i := 0 to 8
      invariant hash[..] == was
      invariant forall j :: 0 <= j < i ==> chunk[j] == Load64(was, j)
    {
      chunk[i] := Load64(hash[..], i);
    }
    var rounds := Schedule(block);
    assert hash[..] == was;
    Rounds(chunk, rounds, h, m);
    AddTo(hash, chunk);
  }

  /** The last loop: the variables are added to the hash value. */
  method AddTo(hash: array<bv8>, chunk: array<bv64>)
    requires hash.Length >= 64 && chunk.Length == 8
    modifies hash
    ensures forall j :: 0 <= j < 8 ==> Load64(hash[..], j) == Plus(Load64(old(hash[..]), j), chunk[j])
    ensures hash[64..] == old(hash[64..])
  {
    hide Load64;
    ghost var was := hash[..];
    for i := 0 to 8
      invariant forall j :: 0 <= j < i ==> Load64(hash[..], j) == Plus(Load64(was, j), chunk[j])
      invariant forall j :: i <= j < 8 ==> Load64(hash[..], j) == Load64(was, j)
      invariant hash[64..] == was[64..]
    {
      Store64(hash, i, Plus(Load64(hash[..], i), chunk[i]));
    }
  }
}
