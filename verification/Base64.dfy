/**
 * Base64 text: the encoding of section 4 of RFC 4648, and the encoder and decoder of
 * Common/esif_sdk_base64_enc.c and Common/esif_sdk_base64_dec.c. The decoder accepts more than
 * encodings; `Meaning` is what it makes of a text, and `EncodingIffCanonical` says which of the
 * accepted texts are encodings.
 */
module Base64 {
  import opened Base

  // ----- the alphabet -----

  const ROWS: seq<string> := [
    "ABCDEFGH", "IJKLMNOP", "QRSTUVWX", "YZabcdef", "ghijklmn", "opqrstuv", "wxyz0123", "456789+/"]

  function Digit(n: bv8): char
    requires n < 64
  {
    ROWS[(n as nat) / 8][(n as nat) % 8]
  }

  predicate InAlphabet(c: char) {
    'A' <= c <= 'Z' || 'a' <= c <= 'z' || '0' <= c <= '9' || c == '+' || c == '/'
  }

  function Ordinal(c: char): (n: nat)
    ensures n < 64
  {
    if c == '=' then 0 else if c == '/' then 0x3F else if c == '+' then 0x3E
    else if '0' <= c <= '9' then c as nat - '0' as nat + 0x34
    else if 'a' <= c <= 'z' then c as nat - 'a' as nat + 0x1A
    else if 'A' <= c <= 'Z' then c as nat - 'A' as nat
    else 0
  }

  function Value(c: char): (v: bv8)
    ensures v < 64
  {
    Ordinal(c) as bv8
  }

  lemma ValueOfDigit(n: bv8)
    requires n < 64
    ensures InAlphabet(Digit(n)) && Value(Digit(n)) == n
  {
    var k := n as nat;
    assert k < 64;
    assert Ordinal(ROWS[k / 8][k % 8]) == k;
  }

  /** The characters `strchr` finds in "\r\n\t ", which include its terminating NUL. */
  predicate IsSpace(c: char) {
    c == '\r' || c == '\n' || c == '\t' || c == ' ' || c == '\0'
  }

  predicate AllSpace(t: string) {
    forall i :: 0 <= i < |t| ==> IsSpace(t[i])
  }

  // ----- the encoding, and the meaning of an accepted text -----

  /** Three bytes as one 24-bit group, and its i-th group of six bits from the top. */
  function Bits(a: bv8, b: bv8, c: bv8): bv24 {
    ((a as bv24) << 16) | ((b as bv24) << 8) | (c as bv24)
  }

  function Sextets(g: bv24): (block: seq<bv8>)
    ensures |block| == 4 && IsBlock(block)
  {
    [(g >> 18) as bv8, ((g >> 12) & 0x3F) as bv8, ((g >> 6) & 0x3F) as bv8, (g & 0x3F) as bv8]
  }

  predicate IsBlock(block: seq<bv8>) {
    forall j :: 0 <= j < |block| ==> block[j] < 64
  }

  function Digits(block: seq<bv8>): (q: string)
    requires IsBlock(block)
    ensures |q| == |block|
    ensures forall j :: 0 <= j < |q| ==> InAlphabet(q[j]) && Value(q[j]) == block[j]
  {
    forall j | 0 <= j < |block|
      ensures InAlphabet(Digit(block[j])) && Value(Digit(block[j])) == block[j]
    {
      ValueOfDigit(block[j]);
    }
    seq(|block|, j requires 0 <= j < |block| => Digit(block[j]))
  }

  /** A 24-bit group as four digits, most significant bits first. */
  function Quad(g: bv24): (q: string)
    ensures |q| == 4
  {
    Digits(Sextets(g))
  }

  /** The digits of the next one to three bytes, with zero bits filled in and '=' for what is missing. */
  function Chunk(data: seq<bv8>): (q: string)
    requires data != []
    ensures |q| == 4
  {
    if |data| >= 3 then Quad(Bits(data[0], data[1], data[2]))
    else if |data| == 2 then Quad(Bits(data[0], data[1], 0))[..3] + "="
    else Quad(Bits(data[0], 0, 0))[..2] + "=="
  }

  /** What is left of `data` after its first chunk. */
  function Rest(data: seq<bv8>): (r: seq<bv8>)
    ensures data != [] ==> |r| < |data| && (|data| + 2) / 3 == (|r| + 2) / 3 + 1
  {
    if |data| <= 3 then [] else data[3..]
  }

  function Encoding(data: seq<bv8>): (t: string)
    ensures |t| == (|data| + 2) / 3 * 4
    decreases |data|
  {
    if data == [] then "" else Chunk(data) + Encoding(Rest(data))
  }

  /** Three bytes from four digits; '=' counts as zero bits. */
  function Triple(q: string): (b: seq<bv8>)
    requires |q| == 4
    ensures |b| == 3
  {
    Bytes(Value(q[0]), Value(q[1]), Value(q[2]), Value(q[3]))
  }

  function Bytes(v0: bv8, v1: bv8, v2: bv8, v3: bv8): (b: seq<bv8>)
    ensures |b| == 3
  {
    var g := ((v0 as bv24) << 18) | ((v1 as bv24) << 12) | ((v2 as bv24) << 6) | (v3 as bv24);
    [((g >> 16) & 0xFF) as bv8, ((g >> 8) & 0xFF) as bv8, (g & 0xFF) as bv8]
  }

  /** Four digits; in the last group either of the final two may be '='. */
  predicate IsGroup(q: string, last: bool) {
    && |q| == 4 && InAlphabet(q[0]) && InAlphabet(q[1])
    && (InAlphabet(q[2]) || (last && q[2] == '='))
    && (InAlphabet(q[3]) || (last && q[3] == '='))
  }

  function Pads(q: string): (n: nat)
    requires |q| == 4
    ensures n <= 2
  {
    (if q[2] == '=' then 1 else 0) + (if q[3] == '=' then 1 else 0)
  }

  function GroupBytes(q: string): (b: seq<bv8>)
    requires |q| == 4
    ensures |b| == 3 - Pads(q)
  {
    Triple(q)[..3 - Pads(q)]
  }

  /** How many white space characters `t` starts with. */
  function Leading(t: string): (n: nat)
    ensures n <= |t| && forall i :: 0 <= i < n ==> IsSpace(t[i])
    ensures n < |t| ==> !IsSpace(t[n])
  {
    if t != "" && IsSpace(t[0]) then 1 + Leading(t[1..]) else 0
  }

  function SkipSpace(t: string): (r: string)
    ensures |r| <= |t|
    ensures r == "" || !IsSpace(r[0])
    ensures r == "" <==> AllSpace(t)
  {
    t[Leading(t)..]
  }

  function Prepend(b: seq<bv8>, r: Option<seq<bv8>>): Option<seq<bv8>> {
    match r
    case None => None
    case Some(bytes) => Some(b + bytes)
  }

  /** The bytes the decoder takes a text to stand for, or None when it turns the text down. */
  function Meaning(t: string): Option<seq<bv8>>
    decreases |t|
  {
    if AllSpace(t) then Some([])
    else if |t| < 4 || !IsGroup(t[..4], AllSpace(t[4..])) then None
    else Prepend(GroupBytes(t[..4]), Meaning(SkipSpace(t[4..])))
  }

  // ----- an independent description of the accepted texts -----

  /** One group and the white space that follows it. */
  datatype Piece = Piece(group: string, gap: string)

  function Flatten(ps: seq<Piece>): string {
    if ps == [] then "" else ps[0].group + ps[0].gap + Flatten(ps[1..])
  }

  ghost predicate IsLayout(ps: seq<Piece>, t: string) {
    && (if ps == [] then AllSpace(t) else t == Flatten(ps))
    && forall i :: 0 <= i < |ps| ==> IsGroup(ps[i].group, i == |ps| - 1) && AllSpace(ps[i].gap)
  }

  function LayoutBytes(ps: seq<Piece>): seq<bv8>
    requires forall i :: 0 <= i < |ps| ==> |ps[i].group| == 4
  {
    if ps == [] then [] else GroupBytes(ps[0].group) + LayoutBytes(ps[1..])
  }

  lemma SkipSplits(u: string)
    ensures u == u[..Leading(u)] + SkipSpace(u) && AllSpace(u[..Leading(u)])
  {
  }

  lemma {:induction false} SkipGap(gap: string, r: string)
    requires AllSpace(gap) && (r == "" || !IsSpace(r[0]))
    ensures Leading(gap + r) == |gap| && SkipSpace(gap + r) == r
  {
    if gap != "" {
      assert (gap + r)[1..] == gap[1..] + r;
      SkipGap(gap[1..], r);
    }
  }

  /** Peeling off the first group of a text. */
  lemma {:induction false} MeaningStep(q: string, gap: string, r: string)
    requires AllSpace(gap) && (r == "" || !IsSpace(r[0])) && IsGroup(q, r == "")
    ensures Meaning(q + gap + r) == Prepend(GroupBytes(q), Meaning(r))
  {
    var t := q + gap + r;
    assert t[..4] == q && t[4..] == gap + r;
    assert !IsSpace(t[0]);
    if r != "" {
      assert !IsSpace((gap + r)[|gap|]);
    }
    SkipGap(gap, r);
  }

  lemma {:induction false} LayoutMeaning(ps: seq<Piece>, t: string)
    requires IsLayout(ps, t)
    ensures Meaning(t) == Some(LayoutBytes(ps))
  {
    if ps != [] {
      var tail := ps[1..];
      assert forall i :: 0 <= i < |tail| ==> tail[i] == ps[i + 1];
      LayoutMeaning(tail, Flatten(tail));
      MeaningStep(ps[0].group, ps[0].gap, Flatten(tail));
    }
  }

  lemma {:induction false} LayoutCons(p: Piece, tail: seq<Piece>, r: string) returns (ps: seq<Piece>)
    requires IsLayout(tail, r) && (tail == [] ==> r == "")
    requires IsGroup(p.group, tail == []) && AllSpace(p.gap)
    ensures ps == [p] + tail && IsLayout(ps, p.group + p.gap + r)
    ensures LayoutBytes(ps) == GroupBytes(p.group) + LayoutBytes(tail)
  {
    ps := [p] + tail;
    assert ps[1..] == tail;
    assert forall i :: 1 <= i < |ps| ==> ps[i] == tail[i - 1];
  }

  lemma {:induction false} MeaningLayout(t: string) returns (ps: seq<Piece>)
    requires Meaning(t).Some?
    ensures IsLayout(ps, t) && LayoutBytes(ps) == Meaning(t).value
    decreases |t|
  {
    hide GroupBytes, Leading, SkipSpace, IsGroup;
    ps := [];
    if !AllSpace(t) {
      var u := t[4..];
      var r := SkipSpace(u);
      var tail := MeaningLayout(r);
      var gap := u[..Leading(u)];
      SkipSplits(u);
      assert t == t[..4] + gap + r;
      assert tail == [] ==> AllSpace(r);
      ps := LayoutCons(Piece(t[..4], gap), tail, r);
    }
  }

  /** Exactly the texts made of whole groups, with white space only after groups, have a meaning. */
  lemma {:induction false} MeaningIffLayout(t: string, bytes: seq<bv8>)
    ensures Meaning(t) == Some(bytes) <==> exists ps :: IsLayout(ps, t) && LayoutBytes(ps) == bytes
  {
    if Meaning(t) == Some(bytes) {
      var ps := MeaningLayout(t);
    }
    forall ps | IsLayout(ps, t) && LayoutBytes(ps) == bytes
      ensures Meaning(t) == Some(bytes)
    {
      LayoutMeaning(ps, t);
    }
  }

  /** A text of n groups stands for 3n bytes less the number of '=' in its last group. */
  lemma {:induction false} LayoutLength(ps: seq<Piece>, t: string)
    requires IsLayout(ps, t)
    ensures |LayoutBytes(ps)| == 3 * |ps| - (if ps == [] then 0 else Pads(ps[|ps| - 1].group))
  {
    if ps != [] {
      var tail := ps[1..];
      assert forall i :: 0 <= i < |tail| ==> tail[i] == ps[i + 1];
      LayoutLength(tail, if tail == [] then "" else Flatten(tail));
    }
  }

  // ----- round trip -----

  lemma BytesOfSextets(a: bv8, b: bv8, c: bv8)
    ensures var v := Sextets(Bits(a, b, c)); Bytes(v[0], v[1], v[2], v[3]) == [a, b, c]
  {
  }

  lemma TripleOfQuad(a: bv8, b: bv8, c: bv8)
    ensures Triple(Quad(Bits(a, b, c))) == [a, b, c]
  {
    hide Bits, Sextets, Bytes, Digits, Value, InAlphabet;
    BytesOfSextets(a, b, c);
  }

  lemma {:induction false} ChunkMeaning(data: seq<bv8>)
    requires data != []
    ensures IsGroup(Chunk(data), |data| <= 3)
    ensures data == GroupBytes(Chunk(data)) + Rest(data)
  {
    hide Chunk, GroupBytes, IsGroup;
    if |data| >= 3 {
      FullChunkMeaning(data);
    } else {
      LastChunkMeaning(data);
    }
  }

  lemma FullChunkMeaning(data: seq<bv8>)
    requires |data| >= 3
    ensures IsGroup(Chunk(data), |data| == 3) && GroupBytes(Chunk(data)) == data[..3]
  {
    hide Triple, Value, Digits;
    TripleOfQuad(data[0], data[1], data[2]);
  }

  lemma LastChunkMeaning(data: seq<bv8>)
    requires 0 < |data| < 3
    ensures IsGroup(Chunk(data), true) && data == GroupBytes(Chunk(data))
  {
    hide Bits, Sextets, Bytes;
    TripleOfQuad(data[0], if |data| == 2 then data[1] else 0, 0);
    LowSextetsVanish(data[0], if |data| == 2 then data[1] else 0);
  }

  lemma LowSextetsVanish(a: bv8, b: bv8)
    ensures Sextets(Bits(a, b, 0))[3] == 0
    ensures b == 0 ==> Sextets(Bits(a, b, 0))[2] == 0
  {
  }

  /** The encoding of `data` with the given white space after its groups, one entry a group. */
  function Spread(data: seq<bv8>, gaps: seq<string>): string
    requires |gaps| == (|data| + 2) / 3
    decreases |data|
  {
    if data == [] then "" else Chunk(data) + gaps[0] + Spread(Rest(data), gaps[1..])
  }

  /** Decoding undoes encoding, whatever white space is put after the groups. */
  lemma {:induction false} RoundTrip(data: seq<bv8>, gaps: seq<string>)
    requires |gaps| == (|data| + 2) / 3 && forall i :: 0 <= i < |gaps| ==> AllSpace(gaps[i])
    ensures Meaning(Spread(data, gaps)) == Some(data)
    decreases |data|
  {
    hide Quad, GroupBytes, Chunk;
    if data != [] {
      var rest := Rest(data);
      var tail := Spread(rest, gaps[1..]);
      RoundTrip(rest, gaps[1..]);
      ChunkMeaning(data);
      if rest != [] {
        ChunkMeaning(rest);
        assert tail[0] == Chunk(rest)[0];
      }
      assert AllSpace(gaps[0]);
      MeaningStep(Chunk(data), gaps[0], tail);
    }
  }

  lemma {:induction false} SpreadNoGaps(data: seq<bv8>, gaps: seq<string>)
    requires |gaps| == (|data| + 2) / 3 && forall i :: 0 <= i < |gaps| ==> gaps[i] == ""
    ensures Spread(data, gaps) == Encoding(data)
    decreases |data|
  {
    if data != [] {
      SpreadNoGaps(Rest(data), gaps[1..]);
      assert Chunk(data) + gaps[0] == Chunk(data);
    }
  }

  /** Distinct byte strings have distinct encodings, each of which decodes back. */
  lemma {:induction false} EncodingDecodes(data: seq<bv8>)
    ensures Meaning(Encoding(data)) == Some(data)
  {
    var gaps := seq((|data| + 2) / 3, _ => "");
    RoundTrip(data, gaps);
    SpreadNoGaps(data, gaps);
  }

  // ----- the alphabet and the bits, said without the tables -----

  /** The n-th character of table 1 of RFC 4648. */
  function Letter(n: nat): char
    requires n < 64
  {
    if n < 26 then 'A' + n as char
    else if n < 52 then 'a' + (n - 26) as char
    else if n < 62 then '0' + (n - 52) as char
    else if n == 62 then '+'
    else '/'
  }

  /** The encoder's table holds these characters, in this order. */
  lemma DigitIsLetter(n: bv8)
    requires n < 64
    ensures Digit(n) == Letter(n as nat)
  {
    var k := n as nat;
    assert k < 64;
    RowIsLetter(k);
  }

  lemma RowIsLetter(k: nat)
    requires k < 64
    ensures ROWS[k / 8][k % 8] == Letter(k)
  {
  }

  /** The decoder's arithmetic is the inverse. */
  lemma ValueOfLetter(n: nat)
    requires n < 64
    ensures InAlphabet(Letter(n)) && Value(Letter(n)) as nat == n
  {
    ValueIsOrdinal(Letter(n));
    hide Value;
  }

  /** Bit `i` of a byte string, counted from the most significant bit of the first byte; zero behind its end. */
  function BitAt(data: seq<bv8>, i: nat): bv8 {
    if i / 8 < |data| then ByteBit(data[i / 8], 7 - i % 8) else 0
  }

  /** Bit `k` of a byte, counted from the least significant one. */
  function ByteBit(b: bv8, k: nat): bv8
    requires k < 8
  {
    (b >> k) & 1
  }

  /** The number that six bits make, the most significant first. */
  function SixOf(b0: bv8, b1: bv8, b2: bv8, b3: bv8, b4: bv8, b5: bv8): (v: bv8)
    ensures v < 64
  {
    ((b0 & 1) << 5) | ((b1 & 1) << 4) | ((b2 & 1) << 3) | ((b3 & 1) << 2) | ((b4 & 1) << 1) | (b5 & 1)
  }

  /** The number that the six bits from bit 6p on make. */
  function SixBits(data: seq<bv8>, p: nat): (v: bv8)
    ensures v < 64
  {
    SixOf(BitAt(data, 6 * p), BitAt(data, 6 * p + 1), BitAt(data, 6 * p + 2),
          BitAt(data, 6 * p + 3), BitAt(data, 6 * p + 4), BitAt(data, 6 * p + 5))
  }

  lemma SextetBits(a: bv8, b: bv8, c: bv8)
    ensures Sextets(Bits(a, b, c)) == [
      SixOf(ByteBit(a, 7), ByteBit(a, 6), ByteBit(a, 5), ByteBit(a, 4), ByteBit(a, 3), ByteBit(a, 2)),
      SixOf(ByteBit(a, 1), ByteBit(a, 0), ByteBit(b, 7), ByteBit(b, 6), ByteBit(b, 5), ByteBit(b, 4)),
      SixOf(ByteBit(b, 3), ByteBit(b, 2), ByteBit(b, 1), ByteBit(b, 0), ByteBit(c, 7), ByteBit(c, 6)),
      SixOf(ByteBit(c, 5), ByteBit(c, 4), ByteBit(c, 3), ByteBit(c, 2), ByteBit(c, 1), ByteBit(c, 0))]
  {
  }

  lemma BitOfByte(data: seq<bv8>, j: nat, k: nat)
    requires j < |data| && k < 8
    ensures BitAt(data, 8 * j + k) == ByteBit(data[j], 7 - k)
  {
    assert (8 * j + k) / 8 == j && (8 * j + k) % 8 == k;
  }

  /** The bits of one byte. */
  lemma BitsOfByte(data: seq<bv8>, j: nat)
    requires j < |data|
    ensures BitAt(data, 8 * j) == ByteBit(data[j], 7) && BitAt(data, 8 * j + 1) == ByteBit(data[j], 6)
    ensures BitAt(data, 8 * j + 2) == ByteBit(data[j], 5) && BitAt(data, 8 * j + 3) == ByteBit(data[j], 4)
    ensures BitAt(data, 8 * j + 4) == ByteBit(data[j], 3) && BitAt(data, 8 * j + 5) == ByteBit(data[j], 2)
    ensures BitAt(data, 8 * j + 6) == ByteBit(data[j], 1) && BitAt(data, 8 * j + 7) == ByteBit(data[j], 0)
  {
    hide BitAt, ByteBit;
    BitOfByte(data, j, 0); BitOfByte(data, j, 1); BitOfByte(data, j, 2); BitOfByte(data, j, 3);
    BitOfByte(data, j, 4); BitOfByte(data, j, 5); BitOfByte(data, j, 6); BitOfByte(data, j, 7);
  }

  lemma SixesOfThree(d: seq<bv8>)
    ensures SixBits(d, 0) == SixOf(BitAt(d, 0), BitAt(d, 1), BitAt(d, 2), BitAt(d, 3), BitAt(d, 4), BitAt(d, 5))
    ensures SixBits(d, 1) == SixOf(BitAt(d, 6), BitAt(d, 7), BitAt(d, 8), BitAt(d, 9), BitAt(d, 10), BitAt(d, 11))
    ensures SixBits(d, 2) == SixOf(BitAt(d, 12), BitAt(d, 13), BitAt(d, 14), BitAt(d, 15), BitAt(d, 16), BitAt(d, 17))
    ensures SixBits(d, 3) == SixOf(BitAt(d, 18), BitAt(d, 19), BitAt(d, 20), BitAt(d, 21), BitAt(d, 22), BitAt(d, 23))
  {
    hide BitAt, SixOf;
  }

  lemma BitsOfThree(d: seq<bv8>)
    requires |d| == 3
    ensures BitAt(d, 0) == ByteBit(d[0], 7) && BitAt(d, 1) == ByteBit(d[0], 6) && BitAt(d, 2) == ByteBit(d[0], 5)
    ensures BitAt(d, 3) == ByteBit(d[0], 4) && BitAt(d, 4) == ByteBit(d[0], 3) && BitAt(d, 5) == ByteBit(d[0], 2)
    ensures BitAt(d, 6) == ByteBit(d[0], 1) && BitAt(d, 7) == ByteBit(d[0], 0)
    ensures BitAt(d, 8) == ByteBit(d[1], 7) && BitAt(d, 9) == ByteBit(d[1], 6) && BitAt(d, 10) == ByteBit(d[1], 5)
    ensures BitAt(d, 11) == ByteBit(d[1], 4) && BitAt(d, 12) == ByteBit(d[1], 3) && BitAt(d, 13) == ByteBit(d[1], 2)
    ensures BitAt(d, 14) == ByteBit(d[1], 1) && BitAt(d, 15) == ByteBit(d[1], 0)
    ensures BitAt(d, 16) == ByteBit(d[2], 7) && BitAt(d, 17) == ByteBit(d[2], 6) && BitAt(d, 18) == ByteBit(d[2], 5)
    ensures BitAt(d, 19) == ByteBit(d[2], 4) && BitAt(d, 20) == ByteBit(d[2], 3) && BitAt(d, 21) == ByteBit(d[2], 2)
    ensures BitAt(d, 22) == ByteBit(d[2], 1) && BitAt(d, 23) == ByteBit(d[2], 0)
  {
    hide BitAt, ByteBit;
    BitsOfByte(d, 0);
    BitsOfByte(d, 1);
    BitsOfByte(d, 2);
  }

  /** The sextets of three bytes are their bits in sixes. */
  lemma SextetsAreBits(d: seq<bv8>)
    requires |d| == 3
    ensures Sextets(Bits(d[0], d[1], d[2])) == [SixBits(d, 0), SixBits(d, 1), SixBits(d, 2), SixBits(d, 3)]
  {
    hide Sextets, Bits, SixOf, BitAt, SixBits, ByteBit;
    SextetBits(d[0], d[1], d[2]);
    SixesOfThree(d);
    BitsOfThree(d);
  }

  /** Zero bytes behind the end make no difference. */
  lemma ZerosBehind(data: seq<bv8>, zeros: seq<bv8>, p: nat)
    requires forall j :: 0 <= j < |zeros| ==> zeros[j] == 0
    ensures SixBits(data + zeros, p) == SixBits(data, p)
  {
    forall i: nat
      ensures BitAt(data + zeros, i) == BitAt(data, i)
    {
    }
    hide BitAt, SixOf;
  }

  lemma BitOfRest(data: seq<bv8>, i: nat)
    requires |data| > 3
    ensures BitAt(data, i + 24) == BitAt(data[3..], i)
  {
    assert (i + 24) / 8 == i / 8 + 3 && (i + 24) % 8 == i % 8;
  }

  lemma BitsOfRest(data: seq<bv8>, p: nat)
    requires |data| > 3
    ensures SixBits(data, p + 4) == SixBits(data[3..], p)
  {
    hide BitAt, SixOf;
    BitOfRest(data, 6 * p); BitOfRest(data, 6 * p + 1); BitOfRest(data, 6 * p + 2);
    BitOfRest(data, 6 * p + 3); BitOfRest(data, 6 * p + 4); BitOfRest(data, 6 * p + 5);
  }

  lemma BitsOfFirst(data: seq<bv8>, p: nat)
    requires |data| >= 3 && p < 4
    ensures SixBits(data, p) == SixBits(data[..3], p)
  {
    forall i: nat | i < 24
      ensures BitAt(data, i) == BitAt(data[..3], i)
    {
    }
    hide BitAt, SixOf;
  }

  lemma ChunkDigits(data: seq<bv8>, p: nat)
    requires data != [] && p < 4
    ensures Chunk(data)[p] == if 6 * p < 8 * |data| then Digit(SixBits(data, p)) else '='
  {
    hide Bits, Sextets, SixBits, Digit;
    if |data| >= 3 {
      SextetsAreBits(data[..3]);
      BitsOfFirst(data, p);
    } else {
      var zeros: seq<bv8> := if |data| == 2 then [0] else [0, 0];
      SextetsAreBits(data + zeros);
      ZerosBehind(data, zeros, p);
    }
  }

  /**
   * Every digit of an encoding is the character for the number that its six bits make in the byte string,
   * and '=' stands where no bit of the bytes is left.
   */
  lemma {:induction false} EncodingDigits(data: seq<bv8>, p: nat)
    requires p < |Encoding(data)|
    ensures Encoding(data)[p] == if 6 * p < 8 * |data| then Letter(SixBits(data, p) as nat) else '='
    decreases |data|
  {
    hide Chunk, SixBits, Letter;
    if p < 4 {
      ChunkDigits(data, p);
      DigitIsLetter(SixBits(data, p));
    } else {
      EncodingDigits(Rest(data), p - 4);
      BitsOfRest(data, p - 4);
    }
  }

  /** The three bytes of a group have its digits' values as their bits in sixes; '=' counts as zero. */
  lemma GroupBits(q: string, last: bool, p: nat)
    requires IsGroup(q, last) && p < 4
    ensures SixBits(Triple(q), p) == Value(q[p]) && (q[p] == '=' ==> Value(q[p]) == 0)
    ensures GroupBytes(q) == Triple(q)[..3 - Pads(q)]
  {
    PadIsZero();
    hide Bits, Sextets, Bytes, SixBits, Value, InAlphabet;
    SextetsOfBytes(Value(q[0]), Value(q[1]), Value(q[2]), Value(q[3]));
    SextetsAreBits(Triple(q));
  }

  lemma PadIsZero()
    ensures Value('=') == 0
  {
  }

  // ----- which accepted texts are encodings -----

  predicate NoSpace(t: string) {
    forall i :: 0 <= i < |t| ==> !IsSpace(t[i])
  }

  /** No digit after '=', and zero in the bits that belong to no byte. */
  predicate CanonicalGroup(q: string)
    requires |q| == 4
  {
    && (q[2] == '=' ==> q[3] == '=' && Value(q[1]) & 0xF == 0)
    && (q[2] != '=' && q[3] == '=' ==> Value(q[2]) & 0x3 == 0)
  }

  /** No white space anywhere, and a last group of that kind. */
  predicate Canonical(t: string) {
    NoSpace(t) && (|t| >= 4 ==> CanonicalGroup(t[|t| - 4..]))
  }

  /** Distinct digits have distinct values. */
  lemma SameValue(c: char, d: char)
    requires InAlphabet(c) && InAlphabet(d)
    ensures Value(c) == Value(d) <==> c == d
  {
    ValueIsOrdinal(c);
    ValueIsOrdinal(d);
    hide Value;
    assert Ordinal(c) == Ordinal(d) ==> c == d;
  }

  lemma ValueIsOrdinal(c: char)
    ensures Value(c) as nat == Ordinal(c)
  {
    hide Ordinal;
  }

  lemma SextetsOfBytes(v0: bv8, v1: bv8, v2: bv8, v3: bv8)
    requires v0 < 64 && v1 < 64 && v2 < 64 && v3 < 64
    ensures var b := Bytes(v0, v1, v2, v3);
      && Sextets(Bits(b[0], b[1], b[2])) == [v0, v1, v2, v3]
      && Sextets(Bits(b[0], b[1], 0)) == [v0, v1, v2 & 0x3C, 0]
      && Sextets(Bits(b[0], 0, 0)) == [v0, v1 & 0x30, 0, 0]
  {
  }

  lemma LowBits(v: bv8)
    requires v < 64
    ensures v & 0x3C == v <==> v & 0x3 == 0
    ensures v & 0x30 == v <==> v & 0xF == 0
  {
  }

  /** A group is what the encoder makes of its bytes exactly if it is canonical. */
  lemma GroupIffCanonical(q: string, last: bool)
    requires IsGroup(q, last)
    ensures Chunk(GroupBytes(q)) == q <==> CanonicalGroup(q)
  {
    hide Bits, Sextets, Bytes, Value, InAlphabet;
    SextetsOfBytes(Value(q[0]), Value(q[1]), Value(q[2]), Value(q[3]));
    LowBits(Value(q[1]));
    LowBits(Value(q[2]));
    var c := Chunk(GroupBytes(q));
    NoPadInAlphabet(q[2]);
    NoPadInAlphabet(q[3]);
    assert c == q <==> c[0] == q[0] && c[1] == q[1] && c[2] == q[2] && c[3] == q[3];
    SameValue(c[0], q[0]);
    SameValue(c[1], q[1]);
    if q[2] != '=' {
      SameValue(c[2], q[2]);
      if q[3] != '=' { SameValue(c[3], q[3]); }
    }
  }

  lemma NoPadInAlphabet(c: char)
    ensures InAlphabet(c) ==> c != '='
  {
  }

  lemma {:induction false} EncodingHasNoSpace(data: seq<bv8>)
    ensures NoSpace(Encoding(data))
    decreases |data|
  {
    hide Quad;
    if data != [] {
      ChunkHasNoSpace(data);
      EncodingHasNoSpace(Rest(data));
    }
  }

  lemma ChunkHasNoSpace(data: seq<bv8>)
    requires data != []
    ensures NoSpace(Chunk(data))
  {
    hide Sextets, Bits;
  }

  /** The first group of a text, and the rest if no white space follows. */
  lemma FirstGroup(t: string, bytes: seq<bv8>)
    requires Meaning(t) == Some(bytes) && NoSpace(t) && t != ""
    ensures |t| >= 4 && IsGroup(t[..4], |t| == 4)
    ensures Meaning(t[4..]).Some? && bytes == GroupBytes(t[..4]) + Meaning(t[4..]).value
    ensures |t| == 4 || |t| >= 8
  {
    hide GroupBytes, IsGroup;
    assert !IsSpace(t[0]) && !AllSpace(t);
    var u := t[4..];
    assert NoSpace(u);
    assert AllSpace(u) <==> u == "";
    assert SkipSpace(u) == u;
  }

  lemma {:induction false} NoSpaceIffCanonical(t: string, bytes: seq<bv8>)
    requires Meaning(t) == Some(bytes) && NoSpace(t)
    ensures t == Encoding(bytes) <==> Canonical(t)
    decreases |t|
  {
    hide Chunk, GroupBytes, Meaning, CanonicalGroup;
    if t == "" {
      MeaningStart("");
    } else {
      FirstGroup(t, bytes);
      var q, u := t[..4], t[4..];
      GroupIffCanonical(q, |t| == 4);
      if u == "" {
        MeaningStart("");
        assert q == t == t[|t| - 4..] && bytes == GroupBytes(q);
        OneChunk(bytes);
      } else {
        var rest := Meaning(u).value;
        assert NoSpace(u);
        NoSpaceIffCanonical(u, rest);
        assert u[|u| - 4..] == t[|t| - 4..];
        FullGroup(q, rest);
        assert Encoding(bytes) == q + Encoding(rest);
        assert t == q + u;
      }
    }
  }

  lemma OneChunk(data: seq<bv8>)
    requires 0 < |data| <= 3
    ensures Encoding(data) == Chunk(data)
  {
    assert Rest(data) == [] && Encoding([]) == "";
  }

  /** A group without '=' in front of more bytes. */
  lemma FullGroup(q: string, rest: seq<bv8>)
    requires IsGroup(q, false)
    ensures Encoding(GroupBytes(q) + rest) == q + Encoding(rest)
  {
    var data := GroupBytes(q) + rest;
    GroupIffCanonical(q, false);
    assert data[0] == GroupBytes(q)[0] && data[1] == GroupBytes(q)[1] && data[2] == GroupBytes(q)[2];
    assert Chunk(data) == Chunk(GroupBytes(q));
    assert Rest(data) == rest;
  }

  /**
   * An accepted text is the encoding of its bytes if and only if it is canonical. Every other accepted
   * text decodes to bytes whose encoding differs from it.
   */
  lemma EncodingIffCanonical(t: string, bytes: seq<bv8>)
    requires Meaning(t) == Some(bytes)
    ensures t == Encoding(bytes) <==> Canonical(t)
  {
    if NoSpace(t) {
      NoSpaceIffCanonical(t, bytes);
    } else {
      EncodingHasNoSpace(bytes);
    }
  }

  /** Three accepted texts of the same bytes; only the first is an encoding. */
  lemma AcceptedTexts()
    ensures Meaning("ABA=") == Meaning("ABB=") == Meaning("AB=C") == Some([0, 0x10])
    ensures Encoding([0, 0x10]) == "ABA="
  {
    TwelveBits();
    hide Meaning, Bytes;
    OneGroupMeans("ABA=");
    OneGroupMeans("ABB=");
    OneGroupMeans("AB=C");
    OneChunk([0, 0x10]);
    assert GroupBytes("ABA=") == [0, 0x10];
    GroupIffCanonical("ABA=", true);
  }

  lemma TwelveBits()
    ensures Value('A') == 0 && Value('B') == 1 && Value('C') == 2 && Value('=') == 0
    ensures Bytes(0, 1, 0, 0)[..2] == Bytes(0, 1, 1, 0)[..2] == Bytes(0, 1, 0, 2)[..2] == [0, 0x10]
  {
  }

  lemma OneGroupMeans(q: string)
    requires IsGroup(q, true)
    ensures Meaning(q) == Some(GroupBytes(q))
  {
    MeaningStart("");
    MeaningStep(q, "", "");
    assert q + "" + "" == q && GroupBytes(q) + [] == GroupBytes(q);
  }

  // ----- the encoder -----

  function EncodedLength(bytes: nat): nat {
    (bytes + 2) / 3 * 4 + 1
  }

  const SIZE_T_SPAN: nat := 0x1_0000_0000_0000_0000
  const LARGEST_OBJECT: nat := 0x7FFF_FFFF_FFFF_FFFF

  /** The macro BASE64_ENCODED_LENGTH in size_t arithmetic of 64 bits. */
  function EncodedSize(bytes: nat): nat {
    ((bytes + 2) % SIZE_T_SPAN / 3 * 4 + 1) % SIZE_T_SPAN
  }

  /** The macro wraps from 3 * 2^62 - 2 on, which is more than any object holds. */
  lemma SizeIsExactIff(bytes: nat)
    requires bytes < SIZE_T_SPAN
    ensures EncodedSize(bytes) == EncodedLength(bytes) <==> bytes < 3 * 0x4000_0000_0000_0000 - 2
  {
  }

  /** 32 megabytes, encoded, with room for a two-character line break every 64 characters. */
  const MAX_ENCODED_LEN: nat := (((32 * 1024 * 1024) / 3 + 2) * 4 / 64 + 1) * 66

  /** What the limit means: up to 34,603,023 bytes, or 46,137,366 characters. */
  lemma AcceptedSizes(n: nat)
    ensures MAX_ENCODED_LEN == 46_137_366
    ensures EncodedLength(n) <= MAX_ENCODED_LEN <==> n <= 34_603_023
  {
  }

  /** The encoder's shifts and masks pick out the sextets of the group. */
  lemma ShiftsAreSextets(a: bv8, b: bv8, c: bv8)
    ensures Sextets(Bits(a, b, c)) ==
      [a >> 2, ((a << 4) | (b >> 4)) & 0x3F, ((b << 2) | (c >> 6)) & 0x3F, c & 0x3F]
  {
  }

  lemma TailShifts(a: bv8, b: bv8)
    ensures (a << 4) & 0x3F == ((a << 4) | (0 >> 4)) & 0x3F
    ensures (b << 2) & 0x3F == ((b << 2) | (0 >> 6)) & 0x3F
  {
  }

  method Encode(target: array?<char>, targetLen: nat, source: Option<seq<bv8>>, sourceLen: nat) returns (rc: Rc)
    requires target != null ==> targetLen <= target.Length
    requires sourceLen < SIZE_T_SPAN && (source.Some? ==> sourceLen <= |source.value| <= LARGEST_OBJECT)
    modifies if target == null then {} else {target}
    ensures rc ==
      if EncodedSize(sourceLen) > MAX_ENCODED_LEN then ParameterIsOutOfBounds
      else if targetLen < EncodedSize(sourceLen) then NeedLargerBuffer
      else if source == None || target == null then ParameterIsNull
      else Ok
    ensures rc != Ok && target != null ==> unchanged(target)
    ensures rc == Ok ==>
      target[..] == Encoding(source.value[..sourceLen]) + ['\0'] + old(target[..])[EncodedLength(sourceLen)..]
  {
    hide Chunk;
    rc := ParameterIsNull;
    if EncodedSize(sourceLen) > MAX_ENCODED_LEN {
      rc := ParameterIsOutOfBounds;
    } else if targetLen < EncodedSize(sourceLen) {
      rc := NeedLargerBuffer;
    } else if source.Some? && target != null {
      SizeIsExactIff(sourceLen);
      EncodeData(target, source.value[..sourceLen]);
      rc := Ok;
    }
  }

  method EncodeData(target: array<char>, data: seq<bv8>)
    requires EncodedLength(|data|) <= target.Length
    modifies target
    ensures target[..] == Encoding(data) + ['\0'] + old(target[..])[EncodedLength(|data|)..]
  {
    hide Chunk, Encoding, Rest;
    ghost var was := target[..];
    ghost var done, left := EncodeGroups(target, data);
    var o;
    o, done := EncodeLast(target, data, left, done, was);
    Terminate(target, o, done, was);
  }

  /** The last, incomplete block, if there is one. */
  method EncodeLast(target: array<char>, data: seq<bv8>, ghost left: seq<bv8>, ghost done: string, ghost was: string)
      returns (o: nat, ghost text: string)
    requires |was| == target.Length && EncodedLength(|data|) <= target.Length
    requires |done| == |data| / 3 * 4 && left == data[|data| / 3 * 3..]
    requires target[..] == done + was[|done|..] && done + Encoding(left) == Encoding(data)
    modifies target
    ensures text == Encoding(data) && o == |text| && target[..] == text + was[o..]
  {
    hide Chunk, Encoding, Rest;
    var i;
    i, o, text := |data| / 3, |data| / 3 * 4, done;
    if |data| % 3 == 0 {
      EncodingEnd(left, done);
      return;
    }
    if |data| % 3 == 1 {
      EncodeOne(target, o, data[i * 3], left, done, was);
    } else {
      EncodeTwo(target, o, data[i * 3], data[i * 3 + 1], left, done, was);
    }
    EncodingStep(left, done);
    text := done + Chunk(left);
    EncodingEnd(Rest(left), text);
    o := o + 4;
  }

  /** The loop over the complete blocks; `left` is the incomplete one. */
  method EncodeGroups(target: array<char>, data: seq<bv8>) returns (ghost done: string, ghost left: seq<bv8>)
    requires |data| / 3 * 4 <= target.Length
    modifies target
    ensures |done| == |data| / 3 * 4 && left == data[|data| / 3 * 3..]
    ensures target[..] == done + old(target[..])[|done|..]
    ensures done + Encoding(left) == Encoding(data)
  {
    hide Chunk, Encoding, Rest;
    ghost var was := target[..];
    done, left := "", data;
    assert done + Encoding(left) == Encoding(data);
    var i, o := 0, 0;
    while i < |data| / 3
      invariant 0 <= i <= |data| / 3 && o == |done| == 4 * i && left == data[3 * i..]
      invariant target[..] == done + was[o..]
      invariant done + Encoding(left) == Encoding(data)
    {
      EncodeGroup(target, o, data[i * 3], data[i * 3 + 1], data[i * 3 + 2], left, done, was);
      EncodingStep(left, done);
      done, left := done + Chunk(left), Rest(left);
      o := o + 4;
      i := i + 1;
    }
  }

  method Terminate(target: array<char>, o: nat, ghost done: string, ghost was: string)
    requires |was| == target.Length && |done| == o < target.Length && target[..] == done + was[o..]
    modifies target
    ensures target[..] == done + ['\0'] + was[o + 1..]
  {
    target[o] := '\0';
  }

  /** A complete block, written at position `o` behind the text `done`. */
  method EncodeGroup(target: array<char>, o: nat, a: bv8, b: bv8, c: bv8,
                     ghost left: seq<bv8>, ghost done: string, ghost was: string)
    requires |was| == target.Length && |done| == o && o + 4 <= target.Length && target[..] == done + was[o..]
    requires |left| >= 3 && a == left[0] && b == left[1] && c == left[2]
    modifies target
    ensures target[..] == done + Chunk(left) + was[o + 4..]
  {
    hide Bits, Sextets, Digits;
    ShiftsAreSextets(a, b, c);
    var block := [a >> 2, ((a << 4) | (b >> 4)) & 0x3F, ((b << 2) | (c >> 6)) & 0x3F, c & 0x3F];
    PutDigits(target, o, block, done, was);
  }

  /** The last block, when one byte or two are left. */
  method EncodeOne(target: array<char>, o: nat, a: bv8,
                   ghost left: seq<bv8>, ghost done: string, ghost was: string)
    requires |was| == target.Length && |done| == o && o + 4 <= target.Length && target[..] == done + was[o..]
    requires left == [a]
    modifies target
    ensures target[..] == done + Chunk(left) + was[o + 4..]
  {
    hide Bits, Sextets;
    var block := [a >> 2, (a << 4) & 0x3F];
    ShiftsAreSextets(a, 0, 0);
    TailShifts(a, 0);
    assert block == Sextets(Bits(a, 0, 0))[..2];
    PutDigits(target, o, block, done, was);
    PutPadding(target, o + 2, 2, done + Digits(block), was);
    assert Digits(block) + "==" == Chunk(left);
  }

  method EncodeTwo(target: array<char>, o: nat, a: bv8, b: bv8,
                   ghost left: seq<bv8>, ghost done: string, ghost was: string)
    requires |was| == target.Length && |done| == o && o + 4 <= target.Length && target[..] == done + was[o..]
    requires left == [a, b]
    modifies target
    ensures target[..] == done + Chunk(left) + was[o + 4..]
  {
    hide Bits, Sextets;
    var block := [a >> 2, ((a << 4) | (b >> 4)) & 0x3F, (b << 2) & 0x3F];
    ShiftsAreSextets(a, b, 0);
    TailShifts(a, b);
    assert block == Sextets(Bits(a, b, 0))[..3];
    PutDigits(target, o, block, done, was);
    PutPadding(target, o + 3, 1, done + Digits(block), was);
    assert Digits(block) + "=" == Chunk(left);
  }

  method PutPadding(target: array<char>, o: nat, n: nat, ghost done: string, ghost was: string)
    requires |was| == target.Length && |done| == o && o + n <= target.Length && target[..] == done + was[o..]
    requires 1 <= n <= 2
    modifies target
    ensures target[..] == done + (if n == 2 then "==" else "=") + was[o + n..]
  {
    target[o] := '=';
    if n == 2 {
      target[o + 1] := '=';
    }
  }

  lemma {:induction false} EncodingStep(left: seq<bv8>, done: string)
    requires left != []
    ensures done + Encoding(left) == done + Chunk(left) + Encoding(Rest(left))
    ensures Rest(left) == if |left| <= 3 then [] else left[3..]
  {
    hide Chunk;
    assert done + (Chunk(left) + Encoding(Rest(left))) == done + Chunk(left) + Encoding(Rest(left));
  }

  lemma {:induction false} EncodingEnd(left: seq<bv8>, done: string)
    requires left == []
    ensures done + Encoding(left) == done
  {
  }

  /** Writes the digits of a block at position `o`, behind the text already written. */
  method PutDigits(target: array<char>, o: nat, block: seq<bv8>, ghost done: string, ghost was: string)
    requires |was| == target.Length && |done| == o && o + |block| <= target.Length
    requires target[..] == done + was[o..]
    requires IsBlock(block)
    modifies target
    ensures target[..] == done + Digits(block) + was[o + |block|..]
  {
    for j := 0 to |block|
      invariant target[..] == done + Digits(block)[..j] + was[o + j..]
    {
      target[o + j] := Digit(block[j]);
    }
  }

  // ----- the decoder -----

  /** The buffer size the decoder asks for: three bytes for every four characters begun. */
  function BufferLength(chars: nat): nat {
    (chars + 3) / 4 * 3
  }

  lemma {:induction false} TrimKeepsMeaning(t: string, c: char)
    requires IsSpace(c)
    ensures Meaning(t + [c]) == Meaning(t)
    decreases |t|
  {
    hide GroupBytes;
    var u := t + [c];
    if AllSpace(t) {
      assert AllSpace(u);
    } else {
      var k :| 0 <= k < |t| && !IsSpace(t[k]);
      assert !IsSpace(u[k]);
      if |t| < 4 {
        assert |u| == 4 ==> !IsGroup(u[..4], AllSpace(u[4..]));
      } else {
        assert u[..4] == t[..4] && u[4..] == t[4..] + [c];
        SkipTrailing(t[4..], c);
        if SkipSpace(t[4..]) != "" {
          TrimKeepsMeaning(SkipSpace(t[4..]), c);
        }
      }
    }
  }

  lemma {:induction false} SkipTrailing(t: string, c: char)
    requires IsSpace(c)
    ensures AllSpace(t + [c]) <==> AllSpace(t)
    ensures Leading(t + [c]) == if AllSpace(t) then |t| + 1 else Leading(t)
    ensures SkipSpace(t + [c]) == if AllSpace(t) then "" else SkipSpace(t) + [c]
  {
    var u := t + [c];
    assert u[..|t|] == t;
    assert AllSpace(t) ==> AllSpace(u);
    assert AllSpace(u) ==> AllSpace(u[..|t|]);
    if t != "" && IsSpace(t[0]) {
      assert u[1..] == t[1..] + [c];
      SkipTrailing(t[1..], c);
    }
  }

  method Decode(target: array?<bv8>, targetLen: Option<nat>, encoded: Option<string>, encodedLen: nat)
      returns (rc: Rc, newLen: Option<nat>)
    requires target != null && targetLen.Some? ==> targetLen.value <= target.Length
    requires encoded.Some? ==> encodedLen <= |encoded.value|
    modifies if target == null then {} else {target}
    ensures rc ==
      if encodedLen > MAX_ENCODED_LEN then ParameterIsOutOfBounds
      else if targetLen.Some? && targetLen.value < BufferLength(encodedLen) then NeedLargerBuffer
      else if target == null || targetLen == None || encoded == None then ParameterIsNull
      else if targetLen.value == BufferLength(encodedLen) && Meaning(encoded.value[..encodedLen]).Some? then Ok
      else CommandDataInvalid
    ensures rc == Ok ==>
      var bytes := Meaning(encoded.value[..encodedLen]).value;
      newLen == Some(|bytes|) && |bytes| <= target.Length && target[..|bytes|] == bytes
    ensures rc == NeedLargerBuffer ==> newLen == Some(BufferLength(encodedLen))
    ensures rc != Ok && rc != NeedLargerBuffer ==> newLen == targetLen
    ensures rc != Ok && rc != CommandDataInvalid && target != null ==> unchanged(target)
    ensures target != null && targetLen.Some? ==> target[targetLen.value..] == old(target[..])[targetLen.value..]
  {
    hide Meaning, BufferLength;
    rc, newLen := ParameterIsNull, targetLen;
    if encodedLen > MAX_ENCODED_LEN {
      rc := ParameterIsOutOfBounds;
    } else if targetLen.Some? && targetLen.value < BufferLength(encodedLen) {
      newLen := Some(BufferLength(encodedLen));
      rc := NeedLargerBuffer;
    } else if target != null && targetLen.Some? && encoded.Some? {
      rc := CommandDataInvalid;
      var n, trailing := Trim(encoded.value[..encodedLen]);
      ghost var text := encoded.value[..encodedLen];
      assert text[..n] == encoded.value[..n];
      var ok, k, padding, whitespace := DecodeGroups(target, targetLen.value, encoded.value[..n], trailing);
      BufferOfWhole(k, whitespace, encodedLen);
      if ok && k == targetLen.value - BufferLength(whitespace) {
        newLen := Some(k - padding);
        rc := Ok;
      }
    }
  }

  /** A text of whole groups and white space needs the room of the groups plus that of the white space. */
  lemma BufferOfWhole(k: nat, whitespace: nat, total: nat)
    ensures k % 3 == 0 && total == k / 3 * 4 + whitespace ==> BufferLength(total) == k + BufferLength(whitespace)
    ensures whitespace <= total ==> BufferLength(whitespace) <= BufferLength(total)
  {
  }

  method Trim(t: string) returns (n: nat, whitespace: nat)
    ensures n + whitespace == |t| && (n == 0 || !IsSpace(t[n - 1]))
    ensures Meaning(t[..n]) == Meaning(t)
  {
    n, whitespace := |t|, 0;
    assert t[..n] == t;
    while n > 0 && IsSpace(t[n - 1])
      invariant n + whitespace == |t|
      invariant Meaning(t[..n]) == Meaning(t)
    {
      assert t[..n] == t[..n - 1] + [t[n - 1]];
      TrimKeepsMeaning(t[..n - 1], t[n - 1]);
      n := n - 1;
      whitespace := whitespace + 1;
    }
  }

  /** The test the decoder makes on the four characters at `j`. */
  predicate LooksLikeGroup(t: string, j: nat)
    requires j + 4 <= |t|
  {
    && InAlphabet(t[j])
    && InAlphabet(t[j + 1])
    && !(!InAlphabet(t[j + 2]) && (j + 2 < |t| - 2 || t[j + 2] != '='))
    && !(!InAlphabet(t[j + 3]) && (j + 3 < |t| - 2 || t[j + 3] != '='))
  }

  ghost predicate Trimmed(t: string) {
    t == "" || !IsSpace(t[|t| - 1])
  }

  lemma TrimmedNotAllSpace(t: string, j: nat)
    requires Trimmed(t) && j < |t|
    ensures !AllSpace(t[j..])
  {
    assert !IsSpace(t[j..][|t| - 1 - j]);
  }

  /** No group at `j`: the rest of the text has no meaning. */
  lemma {:induction false} NoGroup(t: string, j: nat)
    requires Trimmed(t) && j < |t|
    requires |t| < j + 4 || !LooksLikeGroup(t, j)
    ensures Meaning(t[j..]) == None
  {
    TrimmedNotAllSpace(t, j);
    if j + 4 <= |t| {
      assert t[j..][..4] == t[j..j + 4] && t[j..][4..] == t[j + 4..];
      if j + 4 < |t| {
        TrimmedNotAllSpace(t, j + 4);
      }
    }
  }

  /** A group at `j`: its bytes come before those of the text behind the white space that follows. */
  lemma {:induction false} GroupStep(t: string, j: nat, done: seq<bv8>)
    requires Trimmed(t) && j + 4 <= |t| && LooksLikeGroup(t, j)
    ensures var q := t[j..j + 4];
      Prepend(done, Meaning(t[j..])) ==
        if j + 4 == |t| then Some(done + GroupBytes(q))
        else Prepend(done + Triple(q), Meaning(SkipSpace(t[j + 4..])))
  {
    hide Triple, Leading, SkipSpace;
    TrimmedNotAllSpace(t, j);
    var q, r := t[j..j + 4], t[j + 4..];
    assert t[j..][..4] == q && t[j..][4..] == r;
    if r == "" {
      assert IsGroup(q, true) && AllSpace(r);
      PrependTwice(done, GroupBytes(q), Some([]));
    } else {
      TrimmedNotAllSpace(t, j + 4);
      if IsGroup(q, false) {
        assert Pads(q) == 0 && GroupBytes(q) == Triple(q);
        PrependTwice(done, GroupBytes(q), Meaning(SkipSpace(r)));
      } else {
        LastCharacter(t, j);
      }
    }
  }

  lemma PrependTwice(a: seq<bv8>, b: seq<bv8>, r: Option<seq<bv8>>)
    ensures Prepend(a, Prepend(b, r)) == Prepend(a + b, r)
    ensures r == Some([]) ==> Prepend(a + b, r) == Some(a + b)
  {
    assert a + b + [] == a + b;
    if r.Some? {
      assert a + (b + r.value) == a + b + r.value;
    }
  }

  /** Only one more character can follow when '=' was let through too early, and it has no meaning. */
  lemma {:induction false} LastCharacter(t: string, j: nat)
    requires Trimmed(t) && j + 4 < |t| && LooksLikeGroup(t, j) && !IsGroup(t[j..j + 4], false)
    ensures Meaning(SkipSpace(t[j + 4..])) == None
  {
    var r := t[j + 4..];
    assert r == [t[|t| - 1]];
    assert Leading(r) == 0 && SkipSpace(r) == r;
    assert !AllSpace(r) by { assert !IsSpace(r[0]); }
  }

  /** What the code's masks make of four values is what they stand for. */
  lemma MasksAreBytes(v0: bv8, v1: bv8, v2: bv8, v3: bv8)
    requires v0 < 64 && v1 < 64 && v2 < 64 && v3 < 64
    ensures Bytes(v0, v1, v2, v3) ==
      [((v0 & 0x3F) << 2) | ((v1 & 0x30) >> 4), ((v1 & 0x0F) << 4) | ((v2 & 0x3C) >> 2),
       ((v2 & 0x03) << 6) | (v3 & 0x3F)]
  {
  }

  /** Writes the three bytes of a group. */
  method PutTriple(target: array<bv8>, k: nat, q: string)
    requires k + 3 <= target.Length && |q| == 4
    modifies target
    ensures target[..] == old(target[..])[..k] + Triple(q) + old(target[..])[k + 3..]
  {
    hide Bytes, Value;
    var decoded := [Value(q[0]), Value(q[1]), Value(q[2]), Value(q[3])];
    MasksAreBytes(decoded[0], decoded[1], decoded[2], decoded[3]);
    PutThree(target, k,
      ((decoded[0] & 0x3F) << 2) | ((decoded[1] & 0x30) >> 4),
      ((decoded[1] & 0x0F) << 4) | ((decoded[2] & 0x3C) >> 2),
      ((decoded[2] & 0x03) << 6) | (decoded[3] & 0x3F));
  }

  method PutThree(target: array<bv8>, k: nat, a: bv8, b: bv8, c: bv8)
    requires k + 3 <= target.Length
    modifies target
    ensures target[..] == old(target[..])[..k] + [a, b, c] + old(target[..])[k + 3..]
  {
    target[k] := a;
    target[k + 1] := b;
    target[k + 2] := c;
  }

  /** The white space behind a group: where it ends, and its length added to the count. */
  method SkipGapAt(t: string, start: nat, count: nat) returns (j: nat, whitespace: nat)
    requires start <= |t|
    ensures start <= j <= |t| && whitespace == count + (j - start)
    ensures t[j..] == SkipSpace(t[start..])
  {
    j, whitespace := start, count;
    while j < |t| && IsSpace(t[j])
      invariant start <= j <= |t| && whitespace == count + (j - start)
      invariant j + Leading(t[j..]) == start + Leading(t[start..])
    {
      assert t[j..][1..] == t[j + 1..];
      whitespace := whitespace + 1;
      j := j + 1;
    }
    assert t[start..][j - start..] == t[j..];
  }

  /** The main loop over a text without trailing white space; `ok` says the whole text was consumed. */
  method DecodeGroups(target: array<bv8>, targetLen: nat, t: string, trailing: nat)
      returns (ok: bool, k: nat, padding: nat, whitespace: nat)
    requires BufferLength(|t| + trailing) <= targetLen <= target.Length
    requires Trimmed(t)
    modifies target
    ensures ok <==> Meaning(t).Some?
    ensures whitespace <= |t| + trailing
    ensures ok ==>
      && padding <= k <= target.Length
      && Meaning(t).value == target[..k - padding]
      && |t| + trailing == k / 3 * 4 + whitespace && k % 3 == 0
    ensures target[targetLen..] == old(target[..])[targetLen..]
  {
    hide Meaning, LooksLikeGroup, Triple, SkipSpace;
    ghost var was := target[..];
    MeaningStart(t);
    var j, g := 0, 0;
    k, padding, whitespace := 0, 0, trailing;
    while j + 3 < |t| && k + 2 < targetLen
      invariant 0 <= j <= |t| && k == 3 * g <= targetLen && j + trailing == 4 * g + whitespace
      invariant padding <= k && (j < |t| ==> padding == 0)
      invariant Meaning(t) == if j == |t| then Some(target[..k - padding]) else Prepend(target[..k], Meaning(t[j..]))
      invariant target[targetLen..] == was[targetLen..]
    {
      if !LooksLikeGroup(t, j) {
        break;
      }
      ghost var done := target[..k];
      GroupStep(t, j, done);
      PutTriple(target, k, t[j..j + 4]);
      assert target[..k + 3] == done + Triple(t[j..j + 4]);
      if j + 4 == |t| {
        if t[j + 2] == '=' {
          padding := padding + 1;
        }
        if t[j + 3] == '=' {
          padding := padding + 1;
        }
        assert target[..k + 3 - padding] == done + GroupBytes(t[j..j + 4]);
      }
      SkipNothing(t[j + 4..]);
      j, whitespace := SkipGapAt(t, j + 4, whitespace);
      k := k + 3;
      g := g + 1;
    }
    if j < |t| {
      NoGroup(t, j);
    }
    ok := j == |t|;
  }

  lemma {:induction false} MeaningStart(t: string)
    ensures t == "" ==> Meaning(t) == Some([])
    ensures Meaning(t) == Prepend([], Meaning(t))
  {
    if Meaning(t).Some? {
      assert [] + Meaning(t).value == Meaning(t).value;
    }
  }

  lemma SkipNothing(r: string)
    ensures SkipSpace(r) == "" <==> AllSpace(r)
  {
  }

  // ----- both, the way a client calls them -----

  /** Asks for the size, then decodes into a buffer of that size. */
  method DecodeAll(text: string) returns (rc: Rc, bytes: seq<bv8>)
    requires |text| <= MAX_ENCODED_LEN
    ensures rc == Ok <==> Meaning(text).Some?
    ensures rc == Ok ==> bytes == Meaning(text).value
  {
    hide Meaning;
    assert text[..|text|] == text;
    var size;
    rc, size := Decode(null, Some(0), None, |text|);
    var target := new bv8[size.value];
    var length;
    assert size.value == BufferLength(|text|);
    rc, length := Decode(target, size, Some(text), |text|);
    bytes := if rc == Ok then target[..length.value] else [];
  }

  /** Any bytes within the size limit come back from the encoder's output. */
  method EncodeAndDecode(data: seq<bv8>) returns (rc: Rc, bytes: seq<bv8>)
    requires EncodedLength(|data|) <= MAX_ENCODED_LEN
    ensures rc == Ok && bytes == data
  {
    hide Meaning, Encoding, EncodedLength;
    EncodedRoom(|data|);
    SizeIsExactIff(|data|);
    var target := new char[EncodedLength(|data|)];
    rc := Encode(target, target.Length, Some(data), |data|);
    assert data[..|data|] == data;
    assert target[..target.Length - 1] == Encoding(data);
    EncodingDecodes(data);
    rc, bytes := DecodeAll(target[..target.Length - 1]);
  }

  lemma EncodedRoom(n: nat)
    ensures EncodedLength(n) == (n + 2) / 3 * 4 + 1
  {
  }

  /** So they do when white space was put after the groups, as long as the text is within the limit. */
  method DecodeSpread(data: seq<bv8>, gaps: seq<string>) returns (rc: Rc, bytes: seq<bv8>)
    requires |gaps| == (|data| + 2) / 3 && forall i :: 0 <= i < |gaps| ==> AllSpace(gaps[i])
    requires |Spread(data, gaps)| <= MAX_ENCODED_LEN
    ensures rc == Ok && bytes == data
  {
    hide Meaning, Spread;
    RoundTrip(data, gaps);
    rc, bytes := DecodeAll(Spread(data, gaps));
  }
}
