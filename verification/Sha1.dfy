/**
 * The compression function of SHA-1: its definition in sections 4.1.1 and 6.1.2 of FIPS 180-4, and
 * esif_sha1_transform of Common/esif_sdk_sha.c, which works in place on arrays, proved equal to it.
 */
module Sha1 {
  import opened ShaBytes

  const ROUNDS := 80

  const K_VALUES: seq<bv32> := [0x5a827999, 0x6ed9eba1, 0x8f1bbcdc, 0xca62c1d6]

  function K(t: nat): bv32
    requires t < ROUNDS
  {
    K_VALUES[t / 20]
  }

  // ----- FIPS 180-4 -----

  function Rotl(x: bv32, n: nat): bv32
    requires 0 < n < 32
  {
    (x << n) | (x >> (32 - n))
  }

  function Ch(x: bv32, y: bv32, z: bv32): bv32 { (x & y) ^ (!x & z) }

  function Parity(x: bv32, y: bv32, z: bv32): bv32 { x ^ y ^ z }

  function Maj(x: bv32, y: bv32, z: bv32): bv32 { (x & y) ^ (x & z) ^ (y & z) }

  /** The function used in round `t`. */
  function F(t: nat, x: bv32, y: bv32, z: bv32): bv32
    requires t < ROUNDS
  {
    if t < 20 then Ch(x, y, z) else if t < 40 then Parity(x, y, z) else if t < 60 then Maj(x, y, z) else Parity(x, y, z)
  }

  // Additions are modulo 2^32.

  function Plus(a: bv32, b: bv32): bv32 { a + b }

  function Sum5(a: bv32, b: bv32, c: bv32, d: bv32, e: bv32): bv32 { a + b + c + d + e }

  function Xor4(a: bv32, b: bv32, c: bv32, d: bv32): bv32 { a ^ b ^ c ^ d }

  /** The message schedule of the block `m`. */
  function W(m: seq<bv32>, t: nat): bv32
    requires |m| == 16 && t < ROUNDS
  {
    if t < 16 then m[t]
    else Rotl(Xor4(W(m, t - 3), W(m, t - 8), W(m, t - 14), W(m, t - 16)), 1)
  }

  /** The working variables. */
  datatype Vars = Vars(a: bv32, b: bv32, c: bv32, d: bv32, e: bv32)

  function Round(v: Vars, t: nat, w: bv32): Vars
    requires t < ROUNDS
  {
    Vars(Sum5(Rotl(v.a, 5), F(t, v.b, v.c, v.d), v.e, K(t), w), v.a, Rotl(v.b, 30), v.c, v.d)
  }

  /** The working variables after `t` rounds. */
  function After(h: Vars, m: seq<bv32>, t: nat): Vars
    requires |m| == 16 && t <= ROUNDS
  {
    if t == 0 then h else Round(After(h, m, t - 1), t - 1, W(m, t - 1))
  }

  /** The hash value that follows `h` when the block `m` is processed. */
  function Compress(h: Vars, m: seq<bv32>): Vars
    requires |m| == 16
  {
    var v := After(h, m, ROUNDS);
    Vars(Plus(h.a, v.a), Plus(h.b, v.b), Plus(h.c, v.c), Plus(h.d, v.d), Plus(h.e, v.e))
  }

  /** A block of 64 bytes as sixteen words. */
  function Block(b: seq<bv8>): (m: seq<bv32>)
    requires |b| >= 64
    ensures |m| == 16 && forall i :: 0 <= i < 16 ==> m[i] == Word32(b, i)
  {
    seq(16, i requires 0 <= i < 16 => Word32(b, i))
  }

  // ----- the transform in place -----

  /** Five words in an array, in order. */
  ghost predicate Holds(chunk: seq<bv32>, v: Vars) {
    && |chunk| == 5
    && chunk[0] == v.a && chunk[1] == v.b && chunk[2] == v.c && chunk[3] == v.d && chunk[4] == v.e
  }

  /** The hash value as the machine keeps it in the first bytes of `hash`. */
  function Loaded(hash: seq<bv8>): Vars
    requires |hash| >= 20
  {
    Vars(Load32(hash, 0), Load32(hash, 1), Load32(hash, 2), Load32(hash, 3), Load32(hash, 4))
  }

  /** The loop that reads the block and the one that extends it. */
  method Schedule(block: array<bv8>) returns (rounds: array<bv32>)
    requires block.Length >= 64
    ensures fresh(rounds) && rounds.Length == ROUNDS
    ensures forall t :: 0 <= t < ROUNDS ==> rounds[t] == W(Block(block[..]), t)
  {
    hide Load32, Word32, Reorder32, Rotl, Xor4, Block, W;
    ghost var m := Block(block[..]);
    rounds := new bv32[ROUNDS];
    var i := 0;
    while i < 16
      invariant i <= 16 && block[..] == old(block[..])
      invariant forall t :: 0 <= t < i ==> rounds[t] == W(m, t)
    {
      ReorderedLoad32(block[..], i);
      FirstWords(m, i);
      rounds[i] := Reorder32(Load32(block[..], i));
      i := i + 1;
    }
    while i < ROUNDS
      invariant 16 <= i <= ROUNDS && block[..] == old(block[..])
      invariant forall t :: 0 <= t < i ==> rounds[t] == W(m, t)
    {
      LaterWords(m, i);
      rounds[i] := Xor4(rounds[i - 3], rounds[i - 8], rounds[i - 14], rounds[i - 16]);
      rounds[i] := Rotl(rounds[i], 1);
      i := i + 1;
    }
  }

  lemma FirstWords(m: seq<bv32>, t: nat)
    requires |m| == 16 && t < 16
    ensures W(m, t) == m[t]
  {
  }

  lemma LaterWords(m: seq<bv32>, t: nat)
    requires |m| == 16 && 16 <= t < ROUNDS
    ensures W(m, t) == Rotl(Xor4(W(m, t - 3), W(m, t - 8), W(m, t - 14), W(m, t - 16)), 1)
  {
  }

  /** The loop over the rounds. */
  method Rounds(chunk: array<bv32>, rounds: array<bv32>, ghost h: Vars, ghost m: seq<bv32>)
    requires |m| == 16 && chunk != rounds && rounds.Length == ROUNDS && Holds(chunk[..], h)
    requires forall t :: 0 <= t < ROUNDS ==> rounds[t] == W(m, t)
    modifies chunk
    ensures Holds(chunk[..], After(h, m, ROUNDS))
  {
    hide W, After, Round, K, Holds;
    AfterNone(h, m);
    for i := 0 to ROUNDS
      invariant Holds(chunk[..], After(h, m, i))
    {
      AfterOne(h, m, i);
      OneRound(chunk, i, rounds[i], After(h, m, i));
    }
  }

  lemma AfterNone(h: Vars, m: seq<bv32>)
    requires |m| == 16
    ensures After(h, m, 0) == h
  {
  }

  lemma AfterOne(h: Vars, m: seq<bv32>, t: nat)
    requires |m| == 16 && t < ROUNDS
    ensures After(h, m, t + 1) == Round(After(h, m, t), t, W(m, t))
  {
  }

  /** `temp` in the body of that loop. */
  method NewWord(chunk: array<bv32>, i: nat, w: bv32, ghost v: Vars) returns (temp: bv32)
    requires i < ROUNDS && Holds(chunk[..], v)
    ensures temp == Round(v, i, w).a
  {
    hide Rotl, Ch, Parity, Maj, Sum5;
    match i / 20 {
      case 0 =>
        temp := Sum5(Rotl(chunk[0], 5), Ch(chunk[1], chunk[2], chunk[3]), chunk[4], K_VALUES[0], w);
      case 1 =>
        temp := Sum5(Rotl(chunk[0], 5), Parity(chunk[1], chunk[2], chunk[3]), chunk[4], K_VALUES[1], w);
      case 2 =>
        temp := Sum5(Rotl(chunk[0], 5), Maj(chunk[1], chunk[2], chunk[3]), chunk[4], K_VALUES[2], w);
      case _ =>
        temp := Sum5(Rotl(chunk[0], 5), Parity(chunk[1], chunk[2], chunk[3]), chunk[4], K_VALUES[3], w);
    }
  }

  /** The body of that loop: the variables move up one place, last to first. */
  method OneRound(chunk: array<bv32>, i: nat, w: bv32, ghost v: Vars)
    requires i < ROUNDS && Holds(chunk[..], v)
    modifies chunk
    ensures Holds(chunk[..], Round(v, i, w))
  {
    hide Rotl, Sum5, F;
    var temp := NewWord(chunk, i, w, v);
    chunk[4] := chunk[3];
    chunk[3] := chunk[2];
    chunk[2] := Rotl(chunk[1], 30);
    chunk[1] := chunk[0];
    chunk[0] := temp;
  }

  /** The whole transform. */
  method Transform(hash: array<bv8>, block: array<bv8>)
    requires hash.Length >= 20 && block.Length >= 64 && hash != block
    modifies hash
    ensures Loaded(hash[..]) == Compress(Loaded(old(hash[..])), Block(block[..]))
    ensures hash[20..] == old(hash[20..])
  {
    hide Load32, Block, After, W;
    ghost var h, m := Loaded(hash[..]), Block(block[..]);
    ghost var was := hash[..];
    var chunk := new bv32[5];
    for i := 0 to 5
      invariant hash[..] == was
      invariant forall j :: 0 <= j < i ==> chunk[j] == Load32(was, j)
    {
      chunk[i] := Load32(hash[..], i);
    }
    var rounds := Schedule(block);
    assert hash[..] == was;
    Rounds(chunk, rounds, h, m);
    ghost var v := After(h, m, ROUNDS);
    for i := 0 to 5
      invariant Holds(chunk[..], v) && block[..] == old(block[..])
      invariant forall j :: 0 <= j < i ==> Load32(hash[..], j) == Plus(Load32(was, j), chunk[j])
      invariant forall j :: i <= j < 5 ==> Load32(hash[..], j) == Load32(was, j)
      invariant hash[20..] == was[20..]
    {
      Store32(hash, i, Plus(Load32(hash[..], i), chunk[i]));
    }
  }
}
