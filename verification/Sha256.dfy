/**
 * The compression function of SHA-256: its definition in sections 4.1.2 and 6.2.2 of FIPS 180-4, and
 * esif_sha256_transform of Common/esif_sdk_sha.c, which works in place on arrays, proved equal to it.
 */
module Sha256 {
  import opened ShaBytes

  const ROUNDS := 64

  const K_ROWS: seq<seq<bv32>> := [
    [0x428a2f98, 0x71374491, 0xb5c0fbcf, 0xe9b5dba5, 0x3956c25b, 0x59f111f1, 0x923f82a4, 0xab1c5ed5],
    [0xd807aa98, 0x12835b01, 0x243185be, 0x550c7dc3, 0x72be5d74, 0x80deb1fe, 0x9bdc06a7, 0xc19bf174],
    [0xe49b69c1, 0xefbe4786, 0x0fc19dc6, 0x240ca1cc, 0x2de92c6f, 0x4a7484aa, 0x5cb0a9dc, 0x76f988da],
    [0x983e5152, 0xa831c66d, 0xb00327c8, 0xbf597fc7, 0xc6e00bf3, 0xd5a79147, 0x06ca6351, 0x14292967],
    [0x27b70a85, 0x2e1b2138, 0x4d2c6dfc, 0x53380d13, 0x650a7354, 0x766a0abb, 0x81c2c92e, 0x92722c85],
    [0xa2bfe8a1, 0xa81a664b, 0xc24b8b70, 0xc76c51a3, 0xd192e819, 0xd6990624, 0xf40e3585, 0x106aa070],
    [0x19a4c116, 0x1e376c08, 0x2748774c, 0x34b0bcb5, 0x391c0cb3, 0x4ed8aa4a, 0x5b9cca4f, 0x682e6ff3],
    [0x748f82ee, 0x78a5636f, 0x84c87814, 0x8cc70208, 0x90befffa, 0xa4506ceb, 0xbef9a3f7, 0xc67178f2]]

  function K(t: nat): bv32
    requires t < ROUNDS
  {
    K_ROWS[t / 8][t % 8]
  }

  // ----- FIPS 180-4 -----

  function Rotr(x: bv32, n: nat): bv32
    requires 0 < n < 32
  {
    (x >> n) | (x << (32 - n))
  }

  function Ch(x: bv32, y: bv32, z: bv32): bv32 { (x & y) ^ (!x & z) }

  function Maj(x: bv32, y: bv32, z: bv32): bv32 { (x & y) ^ (x & z) ^ (y & z) }

  function BigSigma0(x: bv32): bv32 { Rotr(x, 2) ^ Rotr(x, 13) ^ Rotr(x, 22) }

  function BigSigma1(x: bv32): bv32 { Rotr(x, 6) ^ Rotr(x, 11) ^ Rotr(x, 25) }

  function SmallSigma0(x: bv32): bv32 { Rotr(x, 7) ^ Rotr(x, 18) ^ (x >> 3) }

  function SmallSigma1(x: bv32): bv32 { Rotr(x, 17) ^ Rotr(x, 19) ^ (x >> 10) }

  /** The message schedule of the block `m`. */
  function W(m: seq<bv32>, t: nat): bv32
    requires |m| == 16 && t < ROUNDS
  {
    if t < 16 then m[t]
    else Sum4(SmallSigma1(W(m, t - 2)), W(m, t - 7), SmallSigma0(W(m, t - 15)), W(m, t - 16))
  }

  // Additions are modulo 2^32.

  function Plus(a: bv32, b: bv32): bv32 { a + b }

  function Sum4(a: bv32, b: bv32, c: bv32, d: bv32): bv32 { a + b + c + d }

  function Sum5(a: bv32, b: bv32, c: bv32, d: bv32, e: bv32): bv32 { a + b + c + d + e }

  /** The working variables. */
  datatype Vars = Vars(a: bv32, b: bv32, c: bv32, d: bv32, e: bv32, f: bv32, g: bv32, h: bv32)

  function T1(v: Vars, k: bv32, w: bv32): bv32 { Sum5(v.h, BigSigma1(v.e), Ch(v.e, v.f, v.g), k, w) }

  function T2(v: Vars): bv32 { Plus(BigSigma0(v.a), Maj(v.a, v.b, v.c)) }

  function Round(v: Vars, k: bv32, w: bv32): Vars {
    Vars(Plus(T1(v, k, w), T2(v)), v.a, v.b, v.c, Plus(v.d, T1(v, k, w)), v.e, v.f, v.g)
  }

  /** The working variables after `t` rounds. */
  function After(h: Vars, m: seq<bv32>, t: nat): Vars
    requires |m| == 16 && t <= ROUNDS
  {
    if t == 0 then h else Round(After(h, m, t - 1), K(t - 1), W(m, t - 1))
  }

  /** The hash value that follows `h` when the block `m` is processed. */
  function Compress(h: Vars, m: seq<bv32>): Vars
    requires |m| == 16
  {
    var v := After(h, m, ROUNDS);
    Vars(Plus(h.a, v.a), Plus(h.b, v.b), Plus(h.c, v.c), Plus(h.d, v.d),
         Plus(h.e, v.e), Plus(h.f, v.f), Plus(h.g, v.g), Plus(h.h, v.h))
  }

  /** A block of 64 bytes as sixteen words. */
  function Block(b: seq<bv8>): (m: seq<bv32>)
    requires |b| >= 64
    ensures |m| == 16 && forall i :: 0 <= i < 16 ==> m[i] == Word32(b, i)
  {
    seq(16, i requires 0 <= i < 16 => Word32(b, i))
  }

  // ----- the transform in place -----

  /** Eight words in an array, in order. */
  ghost predicate Holds(chunk: seq<bv32>, v: Vars) {
    && |chunk| == 8
    && chunk[0] == v.a && chunk[1] == v.b && chunk[2] == v.c && chunk[3] == v.d
    && chunk[4] == v.e && chunk[5] == v.f && chunk[6] == v.g && chunk[7] == v.h
  }

  /** The hash value as the machine keeps it in the first bytes of `hash`. */
  function Loaded(hash: seq<bv8>): Vars
    requires |hash| >= 32
  {
    Vars(Load32(hash, 0), Load32(hash, 1), Load32(hash, 2), Load32(hash, 3),
         Load32(hash, 4), Load32(hash, 5), Load32(hash, 6), Load32(hash, 7))
  }

  /** The loop that reads the block and the one that extends it. */
  method Schedule(block: array<bv8>) returns (rounds: array<bv32>)
    requires block.Length >= 64
    ensures fresh(rounds) && rounds.Length == ROUNDS
    ensures forall t :: 0 <= t < ROUNDS ==> rounds[t] == W(Block(block[..]), t)
  {
    hide Load32, Word32, Reorder32, SmallSigma0, SmallSigma1, Sum4, Block, W;
    ghost var m := Block(block[..]);
    rounds := new bv32[ROUNDS];
    var i := 0;
    while i < 16
      invariant i <= 16 && block[..] == old(block[..])
      invariant forall t :: 0 <= t < i ==> rounds[t] == W(m, t)
    {
      ReorderedLoad32(block[..], i);
      FirstWords(m, i);
      rounds[i] := Reorder32(Load32(block[..], i));
      i := i + 1;
    }
    while i < ROUNDS
      invariant 16 <= i <= ROUNDS && block[..] == old(block[..])
      invariant forall t :: 0 <= t < i ==> rounds[t] == W(m, t)
    {
      LaterWords(m, i);
      var s0 := SmallSigma0(rounds[i - 15]);
      var s1 := SmallSigma1(rounds[i - 2]);
      SumReordered(rounds[i - 16], s0, rounds[i - 7], s1);
      rounds[i] := Sum4(rounds[i - 16], s0, rounds[i - 7], s1);
      i := i + 1;
    }
  }

  lemma FirstWords(m: seq<bv32>, t: nat)
    requires |m| == 16 && t < 16
    ensures W(m, t) == m[t]
  {
  }

  lemma LaterWords(m: seq<bv32>, t: nat)
    requires |m| == 16 && 16 <= t < ROUNDS
    ensures W(m, t) == Sum4(SmallSigma1(W(m, t - 2)), W(m, t - 7), SmallSigma0(W(m, t - 15)), W(m, t - 16))
  {
  }

  lemma SumReordered(w16: bv32, s0: bv32, w7: bv32, s1: bv32)
    ensures Sum4(w16, s0, w7, s1) == Sum4(s1, w7, s0, w16)
  {
  }

  /** The loop over the rounds. */
  method Rounds(chunk: array<bv32>, rounds: array<bv32>, ghost h: Vars, ghost m: seq<bv32>)
    requires |m| == 16 && chunk != rounds && rounds.Length == ROUNDS && Holds(chunk[..], h)
    requires forall t :: 0 <= t < ROUNDS ==> rounds[t] == W(m, t)
    modifies chunk
    ensures Holds(chunk[..], After(h, m, ROUNDS))
  {
    hide W, After, Round, K, Holds;
    AfterNone(h, m);
    for i := 0 to ROUNDS
      invariant Holds(chunk[..], After(h, m, i))
    {
      AfterOne(h, m, i);
      OneRound(chunk, K(i), rounds[i], After(h, m, i));
    }
  }

  lemma AfterNone(h: Vars, m: seq<bv32>)
    requires |m| == 16
    ensures After(h, m, 0) == h
  {
  }

  lemma AfterOne(h: Vars, m: seq<bv32>, t: nat)
    requires |m| == 16 && t < ROUNDS
    ensures After(h, m, t + 1) == Round(After(h, m, t), K(t), W(m, t))
  {
  }

  /** The body of that loop: the variables move up one place, last to first. */
  method OneRound(chunk: array<bv32>, k: bv32, w: bv32, ghost v: Vars)
    requires Holds(chunk[..], v)
    modifies chunk
    ensures Holds(chunk[..], Round(v, k, w))
  {
    hide BigSigma0, BigSigma1, Ch, Maj, Sum5, Plus;
    var bigS1 := BigSigma1(chunk[4]);
    var ch := Ch(chunk[4], chunk[5], chunk[6]);
    var bigS0 := BigSigma0(chunk[0]);
    var maj := Maj(chunk[0], chunk[1], chunk[2]);
    var temp1 := Sum5(chunk[7], bigS1, ch, k, w);
    var temp2 := Plus(bigS0, maj);
    assert temp1 == T1(v, k, w) && temp2 == T2(v);
    hide T1, T2;
    chunk[7] := chunk[6];
    chunk[6] := chunk[5];
    chunk[5] := chunk[4];
    chunk[4] := Plus(chunk[3], temp1);
    chunk[3] := chunk[2];
    chunk[2] := chunk[1];
    chunk[1] := chunk[0];
    chunk[0] := Plus(temp1, temp2);
  }

  /** The whole transform. */
  method Transform(hash: array<bv8>, block: array<bv8>)
    requires hash.Length >= 32 && block.Length >= 64 && hash != block
    modifies hash
    ensures Loaded(hash[..]) == Compress(Loaded(old(hash[..])), Block(block[..]))
    ensures hash[32..] == old(hash[32..])
  {
    hide Load32, Block, After, W;
    ghost var h, m := Loaded(hash[..]), Block(block[..]);
    ghost var was := hash[..];
    var chunk := new bv32[8];
    for i := 0 to 8
      invariant hash[..] == was
      invariant forall j :: 0 <= j < i ==> chunk[j] == Load32(was, j)
    {
      chunk[i] := Load32(hash[..], i);
    }
    var rounds := Schedule(block);
    assert hash[..] == was;
    Rounds(chunk, rounds, h, m);
    ghost var v := After(h, m, ROUNDS);
    for i := 0 to 8
      invariant Holds(chunk[..], v) && block[..] == old(block[..])
      invariant forall j :: 0 <= j < i ==> Load32(hash[..], j) == Plus(Load32(was, j), chunk[j])
      invariant forall j :: i <= j < 8 ==> Load32(hash[..], j) == Load32(was, j)
      invariant hash[32..] == was[32..]
    {
      Store32(hash, i, Plus(Load32(hash[..], i), chunk[i]));
    }
  }
}
