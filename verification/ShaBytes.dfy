/**
 * Bytes, 32-bit and 64-bit words as Common/esif_sdk_sha.c handles them: word arrays are views of
 * byte arrays on a little-endian machine, and REORDERBYTES turns a word around.
 */
module ShaBytes {
  const U64_SPAN: nat := 0x1_0000_0000_0000_0000

  // ----- 32-bit words -----

  /** The i-th word of a byte array, as the machine reads it. */
  function Load32(b: seq<bv8>, i: nat): bv32
    requires 4 * i + 4 <= |b|
  {
    Join32(b[4 * i], b[4 * i + 1], b[4 * i + 2], b[4 * i + 3])
  }

  function Join32(b0: bv8, b1: bv8, b2: bv8, b3: bv8): bv32 {
    (b0 as bv32) | ((b1 as bv32) << 8) | ((b2 as bv32) << 16) | ((b3 as bv32) << 24)
  }

  function Reorder32(a: bv32): bv32 {
    (a << 24) | ((a & 0x00ff0000) >> 8) | ((a & 0x0000ff00) << 8) | (a >> 24)
  }

  /** The i-th word of a byte string by the convention of FIPS 180-4 (section 3.1): big-endian. */
  function Word32(b: seq<bv8>, i: nat): bv32
    requires 4 * i + 4 <= |b|
  {
    ((b[4 * i] as bv32) << 24) | ((b[4 * i + 1] as bv32) << 16) | ((b[4 * i + 2] as bv32) << 8) | (b[4 * i + 3] as bv32)
  }

  /** The bytes of a word by the same convention. */
  function Bytes32(w: bv32): (b: seq<bv8>)
    ensures |b| == 4
  {
    [(w >> 24) as bv8, ((w >> 16) & 0xff) as bv8, ((w >> 8) & 0xff) as bv8, (w & 0xff) as bv8]
  }

  lemma ReorderedLoad32(b: seq<bv8>, i: nat)
    requires 4 * i + 4 <= |b|
    ensures Reorder32(Load32(b, i)) == Word32(b, i)
  {
  }

  lemma StoredReordered32(b: seq<bv8>, w: bv32)
    requires |b| == 4 && Load32(b, 0) == Reorder32(w)
    ensures b == Bytes32(w)
  {
  }

  /** A byte-swapped word in memory is the word's bytes in the order of FIPS 180-4. */
  lemma SwappedAt32(b: seq<bv8>, i: nat, w: bv32)
    requires 4 * i + 4 <= |b| && Load32(b, i) == Reorder32(w)
    ensures b[4 * i..4 * i + 4] == Bytes32(w)
  {
    hide Load32, Reorder32, Bytes32;
    var c := b[4 * i..4 * i + 4];
    assert c[4 * 0..4 * 0 + 4] == c;
    SameLoad32(b, i, c, 0);
    StoredReordered32(c, w);
  }

  lemma WordOfBytes32(w: bv32)
    ensures Word32(Bytes32(w), 0) == w
  {
  }

  lemma LoadStored32(w: bv32)
    ensures Load32([(w & 0xff) as bv8, ((w >> 8) & 0xff) as bv8, ((w >> 16) & 0xff) as bv8, (w >> 24) as bv8], 0) == w
  {
  }

  lemma SameLoad32(b: seq<bv8>, i: nat, c: seq<bv8>, j: nat)
    requires 4 * i + 4 <= |b| && 4 * j + 4 <= |c|
    requires b[4 * i..4 * i + 4] == c[4 * j..4 * j + 4]
    ensures Load32(b, i) == Load32(c, j)
  {
    hide Join32;
    var s, t := b[4 * i..4 * i + 4], c[4 * j..4 * j + 4];
    assert s[0] == t[0] && s[1] == t[1] && s[2] == t[2] && s[3] == t[3];
  }

  method Store32(a: array<bv8>, i: nat, w: bv32)
    requires 4 * i + 4 <= a.Length
    modifies a
    ensures Load32(a[..], i) == w
    ensures forall j: nat :: j != i && 4 * j + 4 <= a.Length ==> Load32(a[..], j) == old(Load32(a[..], j))
    ensures forall k :: 0 <= k < a.Length && !(4 * i <= k < 4 * i + 4) ==> a[k] == old(a[k])
  {
    hide Load32;
    var o := 4 * i;
    ghost var was := a[..];
    var b0, b1, b2, b3 := (w & 0xff) as bv8, ((w >> 8) & 0xff) as bv8, ((w >> 16) & 0xff) as bv8, (w >> 24) as bv8;
    a[o], a[o + 1], a[o + 2], a[o + 3] := b0, b1, b2, b3;
    LoadStored32(w);
    assert a[..][4 * i..4 * i + 4] == [b0, b1, b2, b3][4 * 0..4 * 0 + 4];
    SameLoad32(a[..], i, [b0, b1, b2, b3], 0);
    forall j: nat | j != i && 4 * j + 4 <= a.Length
      ensures Load32(a[..], j) == Load32(was, j)
    {
      assert a[..][4 * j..4 * j + 4] == was[4 * j..4 * j + 4];
      SameLoad32(a[..], j, was, j);
    }
  }

  // ----- 64-bit words -----

  function Load64(b: seq<bv8>, i: nat): bv64
    requires 8 * i + 8 <= |b|
  {
    Join64(b[8 * i], b[8 * i + 1], b[8 * i + 2], b[8 * i + 3], b[8 * i + 4], b[8 * i + 5], b[8 * i + 6], b[8 * i + 7])
  }

  function Join64(b0: bv8, b1: bv8, b2: bv8, b3: bv8, b4: bv8, b5: bv8, b6: bv8, b7: bv8): bv64 {
    (b0 as bv64) | ((b1 as bv64) << 8) | ((b2 as bv64) << 16) | ((b3 as bv64) << 24)
    | ((b4 as bv64) << 32) | ((b5 as bv64) << 40) | ((b6 as bv64) << 48) | ((b7 as bv64) << 56)
  }

  function Reorder64(a: bv64): bv64 {
    (a << 56) | ((a & 0x00ff000000000000) >> 40) | ((a & 0x0000ff0000000000) >> 24) | ((a & 0x000000ff00000000) >> 8)
    | ((a & 0x00000000ff000000) << 8) | ((a & 0x0000000000ff0000) << 24) | ((a & 0x000000000000ff00) << 40) | (a >> 56)
  }

  function Word64(b: seq<bv8>, i: nat): bv64
    requires 8 * i + 8 <= |b|
  {
    ((b[8 * i] as bv64) << 56) | ((b[8 * i + 1] as bv64) << 48) | ((b[8 * i + 2] as bv64) << 40)
    | ((b[8 * i + 3] as bv64) << 32) | ((b[8 * i + 4] as bv64) << 24) | ((b[8 * i + 5] as bv64) << 16)
    | ((b[8 * i + 6] as bv64) << 8) | (b[8 * i + 7] as bv64)
  }

  function Bytes64(w: bv64): (b: seq<bv8>)
    ensures |b| == 8
  {
    [(w >> 56) as bv8, ((w >> 48) & 0xff) as bv8, ((w >> 40) & 0xff) as bv8, ((w >> 32) & 0xff) as bv8,
     ((w >> 24) & 0xff) as bv8, ((w >> 16) & 0xff) as bv8, ((w >> 8) & 0xff) as bv8, (w & 0xff) as bv8]
  }

  /** The bytes of a word as the machine stores it. */
  function Stored64(w: bv64): (b: seq<bv8>)
    ensures |b| == 8
  {
    [(w & 0xff) as bv8, ((w >> 8) & 0xff) as bv8, ((w >> 16) & 0xff) as bv8, ((w >> 24) & 0xff) as bv8,
     ((w >> 32) & 0xff) as bv8, ((w >> 40) & 0xff) as bv8, ((w >> 48) & 0xff) as bv8, (w >> 56) as bv8]
  }

  lemma ReorderedLoad64(b: seq<bv8>, i: nat)
    requires 8 * i + 8 <= |b|
    ensures Reorder64(Load64(b, i)) == Word64(b, i)
  {
  }

  lemma StoredReordered64(b: seq<bv8>, w: bv64)
    requires |b| == 8 && Load64(b, 0) == Reorder64(w)
    ensures b == Bytes64(w)
  {
  }

  lemma SwappedAt64(b: seq<bv8>, i: nat, w: bv64)
    requires 8 * i + 8 <= |b| && Load64(b, i) == Reorder64(w)
    ensures b[8 * i..8 * i + 8] == Bytes64(w)
  {
    hide Load64, Reorder64, Bytes64;
    var c := b[8 * i..8 * i + 8];
    assert c[8 * 0..8 * 0 + 8] == c;
    SameLoad64(b, i, c, 0);
    StoredReordered64(c, w);
  }

  lemma WordOfBytes64(w: bv64)
    ensures Word64(Bytes64(w), 0) == w
  {
  }

  lemma LoadStored64(w: bv64)
    ensures Load64(Stored64(w), 0) == w
  {
  }

  lemma SameLoad64(b: seq<bv8>, i: nat, c: seq<bv8>, j: nat)
    requires 8 * i + 8 <= |b| && 8 * j + 8 <= |c|
    requires b[8 * i..8 * i + 8] == c[8 * j..8 * j + 8]
    ensures Load64(b, i) == Load64(c, j)
  {
    hide Join64;
    var s, t := b[8 * i..8 * i + 8], c[8 * j..8 * j + 8];
    assert s[0] == t[0] && s[1] == t[1] && s[2] == t[2] && s[3] == t[3];
    assert s[4] == t[4] && s[5] == t[5] && s[6] == t[6] && s[7] == t[7];
  }

  method Store64(a: array<bv8>, i: nat, w: bv64)
    requires 8 * i + 8 <= a.Length
    modifies a
    ensures Load64(a[..], i) == w
    ensures forall j: nat :: j != i && 8 * j + 8 <= a.Length ==> Load64(a[..], j) == old(Load64(a[..], j))
    ensures forall k :: 0 <= k < a.Length && !(8 * i <= k < 8 * i + 8) ==> a[k] == old(a[k])
  {
    hide Load64, Stored64;
    ghost var was := a[..];
    var b := Stored64(w);
    for k := 0 to 8
      invariant forall n :: 0 <= n < a.Length ==> a[n] == if 8 * i <= n < 8 * i + k then b[n - 8 * i] else was[n]
    {
      a[8 * i + k] := b[k];
    }
    LoadStored64(w);
    assert a[..][8 * i..8 * i + 8] == b[8 * 0..8 * 0 + 8];
    SameLoad64(a[..], i, b, 0);
    forall j: nat | j != i && 8 * j + 8 <= a.Length
      ensures Load64(a[..], j) == Load64(was, j)
    {
      assert a[..][8 * j..8 * j + 8] == was[8 * j..8 * j + 8];
      SameLoad64(a[..], j, was, j);
    }
  }

  // ----- numbers -----

  /** A number in `n` bytes, the most significant first; higher bytes are cut off. */
  function BigEndian(v: nat, n: nat): (b: seq<bv8>)
    ensures |b| == n
  {
    if n == 0 then [] else BigEndian(v / 256, n - 1) + [(v % 256) as bv8]
  }

  function Pow256(n: nat): (p: nat)
    ensures p > 0
  {
    if n == 0 then 1 else 256 * Pow256(n - 1)
  }

  function ByteValue(b: bv8): nat {
    b as nat
  }

  function ValueOf(b: seq<bv8>): nat {
    if b == [] then 0 else 256 * ValueOf(b[..|b| - 1]) + ByteValue(b[|b| - 1])
  }

  /** BigEndian is the binary representation, as far as it fits. */
  lemma {:induction false} BigEndianValue(v: nat, n: nat)
    ensures ValueOf(BigEndian(v, n)) == v % Pow256(n)
  {
    if n > 0 {
      BigEndianValue(v / 256, n - 1);
      var b := BigEndian(v, n);
      assert b[..|b| - 1] == BigEndian(v / 256, n - 1);
      ByteOfValue(v % 256);
      ModStep(v, Pow256(n - 1));
    }
  }

  lemma ByteOfValue(v: nat)
    requires v < 256
    ensures (v as bv8) as nat == v
  {
    // smaller cases for the solver's bit-blasting
    if v < 128 {
      if v < 64 {} else {}
    } else {
      if v < 192 {} else {}
    }
  }

  lemma ModStep(v: nat, p: nat)
    requires p > 0
    ensures v % (256 * p) == 256 * ((v / 256) % p) + v % 256
  {
    var q, r := (v / 256) / p, (v / 256) % p;
    assert v == 256 * (q * p + r) + v % 256;
    assert v == (256 * p) * q + (256 * r + v % 256);
    DivUnique(v, 256 * p, q, 256 * r + v % 256);
  }

  lemma DivUnique(v: nat, d: nat, q: nat, r: nat)
    requires d > 0 && r < d && v == d * q + r
    ensures v % d == r && v / d == q
  {
    var x := v / d - q;
    assert d * x == r - v % d;
    assert x >= 1 ==> d * x >= d;
    assert x <= -1 ==> d * x + d <= 0;
  }

  lemma PowEight()
    ensures Pow256(8) == U64_SPAN
  {
    assert Pow256(4) == 0x1_0000_0000;
    assert Pow256(6) == 0x1_0000_0000_0000;
  }

  /** Only the part of the number that fits matters. */
  lemma {:induction false} CutOff(v: nat, n: nat)
    ensures BigEndian(v % Pow256(n), n) == BigEndian(v, n)
  {
    if n > 0 {
      ModStep(v, Pow256(n - 1));
      assert (v % Pow256(n)) / 256 == (v / 256) % Pow256(n - 1);
      CutOff(v / 256, n - 1);
    }
  }

  /** A number without its `n` lower bytes. */
  function Upper(v: nat, n: nat): nat {
    if n == 0 then v else Upper(v / 256, n - 1)
  }

  lemma UpperEight(v: nat)
    ensures Upper(v, 8) == v / U64_SPAN
  {
    PowEight();
    UpperIs(v, 8);
  }

  lemma {:induction false} BigEndianSplit(v: nat, a: nat, b: nat)
    ensures BigEndian(v, a + b) == BigEndian(Upper(v, b), a) + BigEndian(v, b)
    decreases b
  {
    if b > 0 {
      BigEndianSplit(v / 256, a, b - 1);
    }
  }

  lemma {:induction false} UpperIs(v: nat, n: nat)
    ensures Upper(v, n) == v / Pow256(n)
  {
    if n > 0 {
      UpperIs(v / 256, n - 1);
      DivTwice(v, Pow256(n - 1));
    }
  }

  lemma DivTwice(v: nat, p: nat)
    requires p > 0
    ensures v / 256 / p == v / (256 * p)
  {
    var q, r := (v / 256) / p, (v / 256) % p;
    assert v == (256 * p) * q + (256 * r + v % 256);
    DivUnique(v, 256 * p, q, 256 * r + v % 256);
  }

  // ----- numbers in 64-bit words -----

  function Bits64(v: nat): bv64
    requires v < U64_SPAN
  {
    v as bv64
  }

  function Value64(w: bv64): nat {
    w as nat
  }

  lemma BitsOfValue(w: bv64, v: nat)
    requires v < U64_SPAN && Value64(w) == v
    ensures Bits64(v) == w
  {
  }

  /** A word with one more byte at its lower end. */
  function Push(w: bv64, b: bv8): bv64 {
    (w << 8) | (b as bv64)
  }

  /** Only the lower `n` bytes are in use. */
  predicate Within(w: bv64, n: nat)
    requires n <= 7
  {
    if n == 0 then w == 0
    else if n == 1 then w <= 0xff
    else if n == 2 then w <= 0xffff
    else if n == 3 then w <= 0xff_ffff
    else if n == 4 then w <= 0xffff_ffff
    else if n == 5 then w <= 0xff_ffff_ffff
    else if n == 6 then w <= 0xffff_ffff_ffff
    else w <= 0xff_ffff_ffff_ffff
  }

  lemma PushWithin(w: bv64, b: bv8, n: nat)
    requires n < 7 && Within(w, n)
    ensures Within(Push(w, b), n + 1)
  {
  }

  lemma PushValue(w: bv64, b: bv8)
    requires Within(w, 7)
    ensures Value64(Push(w, b)) == 256 * Value64(w) + ByteValue(b)
  {
  }

  function PushAll(b: seq<bv8>): bv64 {
    if b == [] then 0 else Push(PushAll(b[..|b| - 1]), b[|b| - 1])
  }

  lemma {:induction false} PushAllValue(b: seq<bv8>)
    requires |b| <= 8
    ensures Value64(PushAll(b)) == ValueOf(b)
    ensures |b| < 8 ==> Within(PushAll(b), |b|)
  {
    if b == [] {
      NothingPushed();
    } else {
      hide Push, Value64, ByteValue, Within;
      var front, last := b[..|b| - 1], b[|b| - 1];
      PushAllValue(front);
      WithinMore(PushAll(front), |front|);
      PushValue(PushAll(front), last);
      if |b| < 8 {
        PushWithin(PushAll(front), last, |front|);
      }
    }
  }

  lemma NothingPushed()
    ensures Value64(PushAll([])) == 0 == ValueOf([]) && Within(PushAll([]), 0)
  {
  }

  lemma WithinMore(w: bv64, n: nat)
    requires n <= 7 && Within(w, n)
    ensures Within(w, 7)
  {
  }

  /** The eight bytes of a word, most significant first, have the value of the word. */
  lemma WordIsPushed(b: seq<bv8>)
    requires |b| == 8
    ensures Word64(b, 0) == PushAll(b)
  {
    hide Push, PushAll, Word64;
    PushLast(b, 1); PushLast(b, 2); PushLast(b, 3); PushLast(b, 4);
    PushLast(b, 5); PushLast(b, 6); PushLast(b, 7); PushLast(b, 8);
    assert b[..8] == b;
    PushEight(b);
  }

  lemma PushLast(b: seq<bv8>, n: nat)
    requires 0 < n <= |b|
    ensures PushAll(b[..n]) == Push(PushAll(b[..n - 1]), b[n - 1])
    ensures n == 1 ==> PushAll(b[..0]) == 0
  {
    assert b[..n][..n - 1] == b[..n - 1];
  }

  lemma PushEight(b: seq<bv8>)
    requires |b| == 8
    ensures Push(Push(Push(Push(Push(Push(Push(Push(0, b[0]), b[1]), b[2]), b[3]), b[4]), b[5]), b[6]), b[7])
            == Word64(b, 0)
  {
  }

  /** What REORDERBYTES64 leaves in memory is the number with its most significant byte first. */
  lemma ReorderedInMemory(v: nat)
    requires v < U64_SPAN
    ensures Stored64(Reorder64(Bits64(v))) == BigEndian(v, 8)
  {
    hide Stored64, Reorder64, Bytes64, Word64, Bits64, Value64, BigEndian, ValueOf, PushAll;
    var b := BigEndian(v, 8);
    BigEndianValue(v, 8);
    PowEight();
    WordIsPushed(b);
    PushAllValue(b);
    BitsOfValue(Word64(b, 0), v);
    BytesOfWord64(b);
    StoredSwapped64(Word64(b, 0));
  }

  lemma BytesOfWord64(b: seq<bv8>)
    requires |b| == 8
    ensures Bytes64(Word64(b, 0)) == b
  {
  }

  lemma StoredSwapped64(w: bv64)
    ensures Stored64(Reorder64(w)) == Bytes64(w)
  {
  }
}
