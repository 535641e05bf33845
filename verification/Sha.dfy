/**
 * The streaming interface of Common/esif_sdk_sha.c: init, any number of updates, finish. The ghost
 * field `message` is what the updates have brought so far, and finish leaves the digest of it.
 */
module Sha {
  import opened Base
  import opened ShaBytes
  import opened ShaSpec
  import Sha1
  import Sha256
  import Sha512

  const SHA_HASH_BYTES := 64
  const SHA_BLOCK_BYTES := 128

  const SHA1_TYPE := 1
  const SHA256_TYPE := 256
  const SHA384_TYPE := 384
  const SHA512_TYPE := 512

  function TypeOf(alg: Alg): nat {
    match alg
    case SHA1 => SHA1_TYPE
    case SHA256 => SHA256_TYPE
    case SHA384 => SHA384_TYPE
    case SHA512 => SHA512_TYPE
  }

  function AlgOf(hashtype: nat): Option<Alg> {
    if hashtype == SHA1_TYPE then Some(SHA1)
    else if hashtype == SHA256_TYPE then Some(SHA256)
    else if hashtype == SHA384_TYPE then Some(SHA384)
    else if hashtype == SHA512_TYPE then Some(SHA512)
    else None
  }

  /** The hash value that the machine words in the first bytes of `hash` are. */
  function ValueIn(alg: Alg, hash: seq<bv8>): (v: Value)
    requires |hash| == SHA_HASH_BYTES
    ensures Fits(alg, v)
  {
    match alg
    case SHA1 => V1(Sha1.Loaded(hash))
    case SHA256 => V256(Sha256.Loaded(hash))
    case _ => V512(Sha512.Loaded(hash))
  }

  /** `memcpy(&target[at], &source[from], n)`. */
  method Copy(target: array<bv8>, at: nat, source: seq<bv8>, from: nat, n: nat)
    requires at + n <= target.Length && from + n <= |source|
    modifies target
    ensures target[..at] == old(target[..at]) && target[at + n..] == old(target[at + n..])
    ensures target[at..at + n] == source[from..from + n]
    ensures target[..at + n] == old(target[..at]) + source[from..from + n]
  {
    for i := 0 to n
      invariant forall k :: 0 <= k < target.Length ==>
        target[k] == if at <= k < at + i then source[from + (k - at)] else old(target[k])
    {
      target[at + i] := source[from + i];
    }
  }

  /** `memset(&target[at], 0, n)`. */
  method Clear(target: array<bv8>, at: nat, n: nat)
    requires at + n <= target.Length
    modifies target
    ensures target[..at] == old(target[..at]) && target[at + n..] == old(target[at + n..])
    ensures target[at..at + n] == Zeros(n)
  {
    for i := 0 to n
      invariant forall k :: 0 <= k < target.Length ==>
        target[k] == if at <= k < at + i then 0 else old(target[k])
    {
      target[at + i] := 0;
    }
  }

  class Context {
    var hashType: nat
    var hashSize: nat
    var blockSize: nat
    const hash: array<bv8>
    const block: array<bv8>
    var blockUsed: nat
    var digestBits: nat   // unsigned, 64 bits
    var digestHibits: nat
    ghost var message: seq<bv8>

    ghost predicate Valid() {
      hash.Length == SHA_HASH_BYTES && block.Length == SHA_BLOCK_BYTES && hash != block
    }

    /** Bytes of the message that have gone through the transform. */
    ghost function Done(): int
      reads this
    {
      |message| - blockUsed
    }

    /** Initialized for `alg`; only there may data be added. */
    ghost predicate Set(alg: Alg)
      reads this
    {
      hashType == TypeOf(alg) && hashSize == HashBytes(alg) && blockSize == BlockBytes(alg)
    }

    ghost predicate Counted()
      reads this
    {
      Done() >= 0 && digestBits == LowBits(Done()) && digestHibits == HighBits(Done())
    }

    /** In the middle of hashing `message`. */
    ghost predicate Running(alg: Alg)
      reads this, hash, block
    {
      && Valid() && Set(alg) && Counted()
      && blockUsed < blockSize && Done() % BlockBytes(alg) == 0
      && block[..blockUsed] == message[Done()..]
      && ValueIn(alg, hash[..]) == Hash(alg, message[..Done()])
    }

    constructor ()
      ensures Valid() && fresh(hash) && fresh(block) && blockSize == 0
    {
      hashType, hashSize, blockSize, blockUsed, digestBits, digestHibits := 0, 0, 0, 0, 0, 0;
      hash, block := new bv8[SHA_HASH_BYTES], new bv8[SHA_BLOCK_BYTES];
      message := [];
    }

    /** esif_sha_transform. */
    method Transform(ghost alg: Alg)
      requires Valid() && Set(alg)
      modifies hash
      ensures ValueIn(alg, hash[..]) == Step(alg, old(ValueIn(alg, hash[..])), block[..BlockBytes(alg)])
    {
      hide Sha1.Compress, Sha256.Compress, Sha512.Compress, Sha1.Loaded, Sha256.Loaded, Sha512.Loaded;
      hide Sha1.Block, Sha256.Block, Sha512.Block;
      if hashType == SHA1_TYPE {
        Block1(block[..]);
        Sha1.Transform(hash, block);
      } else if hashType == SHA256_TYPE {
        Block256(block[..]);
        Sha256.Transform(hash, block);
      } else if hashType == SHA384_TYPE || hashType == SHA512_TYPE {
        assert block[..128] == block[..];
        Sha512.Transform(hash, block);
      }
    }

    /** `memset(self, 0, sizeof(*self))`. */
    method Wipe()
      requires Valid()
      modifies this, hash, block
      ensures Valid() && message == [] && hash[..] == Zeros(SHA_HASH_BYTES) && block[..] == Zeros(SHA_BLOCK_BYTES)
      ensures hashType == hashSize == blockSize == blockUsed == digestBits == digestHibits == 0
    {
      Clear(hash, 0, SHA_HASH_BYTES);
      Clear(block, 0, SHA_BLOCK_BYTES);
      assert hash[..] == hash[0..SHA_HASH_BYTES] && block[..] == block[0..SHA_BLOCK_BYTES];
      hashType, hashSize, blockSize, blockUsed, digestBits, digestHibits := 0, 0, 0, 0, 0, 0;
      message := [];
    }

    /** esif_sha_init; an unknown type leaves a context that ignores all data. */
    method Init(hashtype: nat)
      requires Valid()
      modifies this, hash, block
      ensures Valid() && message == []
      ensures match AlgOf(hashtype) case Some(alg) => Running(alg) && blockSize > 0 case None => blockSize == 0
    {
      hide Context.Running;
      Wipe();
      if hashtype == SHA1_TYPE {
        hashType, hashSize, blockSize := SHA1_TYPE, 20, 64;
        Start32(SHA1, [0x67452301, 0xefcdab89, 0x98badcfe, 0x10325476, 0xc3d2e1f0]);
      } else if hashtype == SHA256_TYPE {
        hashType, hashSize, blockSize := SHA256_TYPE, 32, 64;
        Start32(SHA256, [0x6a09e667, 0xbb67ae85, 0x3c6ef372, 0xa54ff53a,
                         0x510e527f, 0x9b05688c, 0x1f83d9ab, 0x5be0cd19]);
      } else if hashtype == SHA384_TYPE {
        hashType, hashSize, blockSize := SHA384_TYPE, 48, 128;
        Start64(SHA384, [0xcbbb9d5dc1059ed8, 0x629a292a367cd507, 0x9159015a3070dd17, 0x152fecd8f70e5939,
                         0x67332667ffc00b31, 0x8eb44a8768581511, 0xdb0c2e0d64f98fa7, 0x47b5481dbefa4fa4]);
      } else if hashtype == SHA512_TYPE {
        hashType, hashSize, blockSize := SHA512_TYPE, 64, 128;
        Start64(SHA512, [0x6a09e667f3bcc908, 0xbb67ae8584caa73b, 0x3c6ef372fe94f82b, 0xa54ff53a5f1d36f1,
                         0x510e527fade682d1, 0x9b05688c2b3e6c1f, 0x1f83d9abfb41bd6b, 0x5be0cd19137e2179]);
      }
    }

    /** Writes the initial hash value. */
    method Start32(ghost alg: Alg, words: seq<bv32>)
      requires Valid() && Set(alg) && message == [] && blockUsed == digestBits == digestHibits == 0
      requires match alg
        case SHA1 =>
          |words| == 5 && InitialValue(alg) == V1(Sha1.Vars(words[0], words[1], words[2], words[3], words[4]))
        case SHA256 => |words| == 8 &&
          InitialValue(alg) == V256(Sha256.Vars(words[0], words[1], words[2], words[3],
                                                words[4], words[5], words[6], words[7]))
        case _ => false
      modifies hash
      ensures Running(alg)
    {
      hide InitialValue, Load32, ValueIn, Hash;
      SetWords32(hash, words);
      if alg == SHA1 { Started1(hash[..], words); } else { Started256(hash[..], words); }
      assert message[..Done()] == [];
    }

    method Start64(ghost alg: Alg, words: seq<bv64>)
      requires Valid() && Set(alg) && message == [] && blockUsed == digestBits == digestHibits == 0
      requires (alg == SHA384 || alg == SHA512) && |words| == 8 &&
        InitialValue(alg) == V512(Sha512.Vars(words[0], words[1], words[2], words[3],
                                              words[4], words[5], words[6], words[7]))
      modifies hash
      ensures Running(alg)
    {
      hide InitialValue, Load64, ValueIn, Hash;
      SetWords64(hash, words);
      Started512(alg, hash[..], words);
      assert message[..Done()] == [];
    }

    /** `digest_bits += bits`, with the carry into `digest_hibits`. */
    method AddLength(bytes: nat, ghost len: nat)
      requires digestBits == LowBits(len) && digestHibits == HighBits(len) && bytes <= 128
      modifies this`digestBits, this`digestHibits
      ensures digestBits == LowBits(len + bytes) && digestHibits == HighBits(len + bytes)
    {
      AddBits(len, bytes);
      var bits := digestBits;
      digestBits := (digestBits + bytes * 8) % U64_SPAN;
      digestHibits := (digestHibits + if digestBits < bits then 1 else 0) % U64_SPAN;
    }

    /** The loop body of esif_sha_update: completes the block with bytes of `source` and transforms it. */
    method CompleteBlock(source: seq<bv8>, from: nat, ghost alg: Alg)
      requires Running(alg) && from + (blockSize - blockUsed) <= |source|
      modifies this`blockUsed, this`digestBits, this`digestHibits, this`message, hash, block
      ensures Running(alg) && blockUsed == 0
      ensures message == old(message) + source[from..from + (blockSize - old(blockUsed))]
    {
      hide Hash, Step, ValueIn, LowBits, HighBits, TypeOf, HashBytes;
      ghost var n, piece := Done(), source[from..from + (blockSize - blockUsed)];
      ghost var used := blockUsed;
      ghost var start, rest := message[..n], message[n..];
      Copy(block, blockUsed, source, from, blockSize - blockUsed);
      assert block[..blockSize] == rest + piece;
      Transform(alg);
      HashStep(alg, start, rest + piece);
      AddLength(blockSize, n);
      message := message + piece;
      blockUsed := 0;
      assert message[..Done()] == start + (rest + piece);
    }

    lemma HasRoom(alg: Alg)
      requires Running(alg)
      ensures blockUsed < blockSize
    {
    }

    /** The loop of esif_sha_update: as long as the data fills blocks. */
    method CompleteBlocks(source: seq<bv8>, ghost alg: Alg) returns (octets: nat)
      requires Running(alg)
      modifies this`blockUsed, this`digestBits, this`digestHibits, this`message, hash, block
      ensures Running(alg) && octets <= |source| && blockUsed + (|source| - octets) < blockSize
      ensures message == Extended(old(message), source, octets)
    {
      hide Context.Running, Extended;
      ghost var before := message;
      NothingYet(before, source);
      HasRoom(alg);
      octets := 0;
      var bytes: nat := |source|;
      while blockUsed + bytes >= blockSize
        invariant Running(alg) && octets + bytes == |source| && blockUsed < blockSize
        invariant message == Extended(before, source, octets)
        decreases bytes
      {
        var n: nat := blockSize - blockUsed;
        CompleteBlock(source, octets, alg);
        NextPiece(before, source, octets, octets + n);
        octets, bytes := octets + n, bytes - n;
      }
    }

    /** esif_sha_update; `None` is a NULL pointer. */
    method Update(source: Option<seq<bv8>>, ghost alg: Alg)
      requires Running(alg) || (Valid() && blockSize == 0)
      modifies this`blockUsed, this`digestBits, this`digestHibits, this`message, hash, block
      ensures blockSize == 0 || source == None || source.value == [] ==>
        unchanged(this) && unchanged(hash) && unchanged(block)
      ensures if blockSize == 0 then Valid()
              else Running(alg) && message == old(message) + if source.Some? then source.value else []
    {
      if source == None || source.value == []
        || blockSize < 8 || blockSize > SHA_BLOCK_BYTES || blockUsed >= blockSize
      {
        return;
      }
      var octets := CompleteBlocks(source.value, alg);
      NextPiece(old(message), source.value, octets, |source.value|);
      Append(source.value, octets, alg);
    }

    /** The rest of the data stays in the block. */
    method Append(source: seq<bv8>, from: nat, ghost alg: Alg)
      requires Running(alg) && from <= |source| && blockUsed + (|source| - from) < blockSize
      modifies this`blockUsed, this`message, block
      ensures Running(alg) && message == old(message) + source[from..]
    {
      hide Hash, ValueIn, LowBits, HighBits, TypeOf, HashBytes;
      ghost var n := Done();
      Copy(block, blockUsed, source, from, |source| - from);
      message := message + source[from..];
      blockUsed := blockUsed + (|source| - from);
      assert message[..n] == old(message)[..n] && message[n..] == old(message)[n..] + source[from..];
      assert block[..blockUsed] == old(block[..blockUsed]) + source[from..];
    }

    /** A byte 0x80 after the data, and zeros to the end of the block. */
    method MarkEnd()
      requires Valid() && blockUsed < blockSize <= SHA_BLOCK_BYTES
      modifies block
      ensures block[..blockSize] == old(block[..blockUsed]) + [0x80] + Zeros(blockSize - blockUsed - 1)
    {
      hide Zeros;
      block[blockUsed] := 0x80;
      if blockUsed + 1 < blockSize {
        Clear(block, blockUsed + 1, blockSize - blockUsed - 1);
      }
      NoZeros();
    }

    /**
     * The first half of esif_sha_finish: the end mark, zeros, and a transform if the length does not
     * fit any more. `before` has been hashed then and the length completes the block after `rest`.
     */
    method Terminate(digestSize: nat, ghost alg: Alg) returns (ghost before: seq<bv8>, ghost rest: seq<bv8>)
      requires Running(alg) && digestSize == LengthBytes(alg)
      modifies hash, block
      ensures |before| % BlockBytes(alg) == 0 && |rest| == BlockBytes(alg) - digestSize
      ensures Pad(alg, message) == before + (rest + BigEndian(8 * |message|, digestSize))
      ensures ValueIn(alg, hash[..]) == Hash(alg, before)
      ensures block[..|rest|] == rest
    {
      hide Hash, ValueIn, LowBits, HighBits, TypeOf, HashBytes, Step, Pad, BigEndian, Zeros;
      ghost var n := Done();
      ghost var tail := message[n..];
      before := message[..n];
      MarkEnd();
      if blockUsed >= blockSize - digestSize {
        PadInTwo(alg, message, n);
        HashStep(alg, before, block[..blockSize]);
        before := before + block[..blockSize];
        Transform(alg);
        Clear(block, 0, blockSize);
        rest := Zeros(blockSize - digestSize);
        FirstZeros(block[..blockSize], blockSize, blockSize - digestSize);
        assert block[..blockSize][..|rest|] == block[..|rest|];
      } else {
        PadInOne(alg, message, n);
        rest := tail + [0x80] + Zeros(blockSize - digestSize - 1 - blockUsed);
        FirstRest(tail, blockSize - blockUsed - 1, blockSize - digestSize - 1 - blockUsed);
        assert block[..blockSize][..|rest|] == block[..|rest|];
      }
    }

    /** Writes a byte-swapped u64 into the block. */
    method PutLength(at: nat, v: nat)
      requires Valid() && at + 8 <= block.Length && v < U64_SPAN
      modifies block
      ensures block[at..at + 8] == BigEndian(v, 8)
      ensures block[..at] == old(block[..at]) && block[at + 8..] == old(block[at + 8..])
    {
      hide Stored64, Reorder64, Bits64;
      var digestLength := Reorder64(Bits64(v));
      ReorderedInMemory(v);
      Copy(block, at, Stored64(digestLength), 0, 8);
    }

    /** The length field at the end of the block. */
    method AppendLength(digestSize: nat, ghost alg: Alg)
      requires Valid() && Set(alg) && digestSize == LengthBytes(alg)
      requires digestBits == LowBits(|message|) && digestHibits == HighBits(|message|)
      modifies block
      ensures block[blockSize - digestSize..blockSize] == BigEndian(8 * |message|, digestSize)
      ensures block[..blockSize - digestSize] == old(block[..blockSize - digestSize])
    {
      LengthField(alg, |message|);
      hide BigEndian;
      if hashType == SHA1_TYPE || hashType == SHA256_TYPE {
        PutLength(blockSize - 8, digestBits);
      } else {
        PutLength(blockSize - digestSize, digestHibits);
        Window(block[..], blockSize - 16, blockSize - 8, blockSize);
        PutLength(blockSize - 8, digestBits);
        Window(block[..], blockSize - 16, blockSize - 8, blockSize);
      }
    }

    /** Turns the words of the digest around. */
    method SwapWords(ghost alg: Alg)
      requires Valid() && Set(alg)
      modifies hash
      ensures hash[..HashBytes(alg)] == Output(alg, old(ValueIn(alg, hash[..])))
    {
      hide Load32, Load64, Reorder32, Reorder64, Bytes32, Bytes64;
      ghost var was := hash[..];
      if hashType == SHA1_TYPE || hashType == SHA256_TYPE {
        for j := 0 to hashSize / 4
          invariant forall k :: 0 <= k < j ==> Load32(hash[..], k) == Reorder32(Load32(was, k))
          invariant forall k :: j <= k < hashSize / 4 ==> Load32(hash[..], k) == Load32(was, k)
        {
          Store32(hash, j, Reorder32(Load32(hash[..], j)));
        }
        if alg == SHA1 { Swapped1(was, hash[..]); } else { Swapped256(was, hash[..]); }
      } else {
        for j := 0 to hashSize / 8
          invariant forall k :: 0 <= k < j ==> Load64(hash[..], k) == Reorder64(Load64(was, k))
          invariant forall k :: j <= k < hashSize / 8 ==> Load64(hash[..], k) == Load64(was, k)
        {
          Store64(hash, j, Reorder64(Load64(hash[..], j)));
        }
        Swapped512(alg, was, hash[..]);
      }
    }

    /** esif_sha_finish. */
    method Finish(ghost alg: Alg)
      requires Running(alg) || (Valid() && blockSize == 0)
      modifies this`blockSize, this`blockUsed, this`digestBits, this`digestHibits, hash, block
      ensures Valid() && blockSize == 0
      ensures if old(blockSize) == 0 then unchanged(this) && unchanged(hash) && unchanged(block)
              else hash[..HashBytes(alg)] == Digest(alg, message)
    {
      hide Hash, ValueIn, LowBits, HighBits, HashBytes, Step, Pad, BigEndian, Output;
      if blockSize < 8 || blockSize > SHA_BLOCK_BYTES || blockUsed >= blockSize {
        return;
      }
      ghost var n := Done();
      var digestSize := 8;
      if hashType == SHA384_TYPE || hashType == SHA512_TYPE {
        digestSize := digestSize + 8;
      }
      ghost var before, rest := Terminate(digestSize, alg);
      AddLength(blockUsed, n);
      AppendLength(digestSize, alg);
      assert block[..blockSize] == rest + BigEndian(8 * |message|, digestSize);
      HashStep(alg, before, block[..blockSize]);
      Transform(alg);
      SwapWords(alg);
      Clear(block, 0, blockSize);
      blockUsed := 0;
      blockSize := 0;
    }
  }

  /** Writes words in the machine's order, one after the other. */
  method SetWords32(a: array<bv8>, words: seq<bv32>)
    requires 4 * |words| <= a.Length
    modifies a
    ensures forall j :: 0 <= j < |words| ==> Load32(a[..], j) == words[j]
  {
    hide Load32;
    for i := 0 to |words|
      invariant forall j :: 0 <= j < i ==> Load32(a[..], j) == words[j]
    {
      Store32(a, i, words[i]);
    }
  }

  method SetWords64(a: array<bv8>, words: seq<bv64>)
    requires 8 * |words| <= a.Length
    modifies a
    ensures forall j :: 0 <= j < |words| ==> Load64(a[..], j) == words[j]
  {
    hide Load64;
    for i := 0 to |words|
      invariant forall j :: 0 <= j < i ==> Load64(a[..], j) == words[j]
    {
      Store64(a, i, words[i]);
    }
  }

  lemma Started1(hash: seq<bv8>, w: seq<bv32>)
    requires |hash| == SHA_HASH_BYTES && |w| == 5 && forall j :: 0 <= j < 5 ==> Load32(hash, j) == w[j]
    requires InitialValue(SHA1) == V1(Sha1.Vars(w[0], w[1], w[2], w[3], w[4]))
    ensures ValueIn(SHA1, hash) == Hash(SHA1, [])
  {
    hide Load32, InitialValue;
  }

  lemma Started256(hash: seq<bv8>, w: seq<bv32>)
    requires |hash| == SHA_HASH_BYTES && |w| == 8 && forall j :: 0 <= j < 8 ==> Load32(hash, j) == w[j]
    requires InitialValue(SHA256) == V256(Sha256.Vars(w[0], w[1], w[2], w[3], w[4], w[5], w[6], w[7]))
    ensures ValueIn(SHA256, hash) == Hash(SHA256, [])
  {
    hide Load32, InitialValue;
  }

  lemma Started512(alg: Alg, hash: seq<bv8>, w: seq<bv64>)
    requires alg == SHA384 || alg == SHA512
    requires |hash| == SHA_HASH_BYTES && |w| == 8 && forall j :: 0 <= j < 8 ==> Load64(hash, j) == w[j]
    requires InitialValue(alg) == V512(Sha512.Vars(w[0], w[1], w[2], w[3], w[4], w[5], w[6], w[7]))
    ensures ValueIn(alg, hash) == Hash(alg, [])
  {
    hide Load64, InitialValue;
  }

  lemma Swapped1(was: seq<bv8>, hash: seq<bv8>)
    requires |was| == |hash| == SHA_HASH_BYTES
    requires forall k :: 0 <= k < 5 ==> Load32(hash, k) == Reorder32(Load32(was, k))
    ensures hash[..20] == Output(SHA1, ValueIn(SHA1, was))
  {
    hide Load32, Reorder32, Bytes32;
    SwappedAt32(hash, 0, Load32(was, 0)); SwappedAt32(hash, 1, Load32(was, 1)); SwappedAt32(hash, 2, Load32(was, 2));
    SwappedAt32(hash, 3, Load32(was, 3)); SwappedAt32(hash, 4, Load32(was, 4));
    Next(hash, 4, 8); Next(hash, 8, 12); Next(hash, 12, 16); Next(hash, 16, 20);
  }

  lemma Swapped256(was: seq<bv8>, hash: seq<bv8>)
    requires |was| == |hash| == SHA_HASH_BYTES
    requires forall k :: 0 <= k < 8 ==> Load32(hash, k) == Reorder32(Load32(was, k))
    ensures hash[..32] == Output(SHA256, ValueIn(SHA256, was))
  {
    hide Load32, Reorder32, Bytes32;
    SwappedAt32(hash, 0, Load32(was, 0)); SwappedAt32(hash, 1, Load32(was, 1)); SwappedAt32(hash, 2, Load32(was, 2));
    SwappedAt32(hash, 3, Load32(was, 3)); SwappedAt32(hash, 4, Load32(was, 4)); SwappedAt32(hash, 5, Load32(was, 5));
    SwappedAt32(hash, 6, Load32(was, 6)); SwappedAt32(hash, 7, Load32(was, 7));
    Next(hash, 4, 8); Next(hash, 8, 12); Next(hash, 12, 16); Next(hash, 16, 20);
    Next(hash, 20, 24); Next(hash, 24, 28); Next(hash, 28, 32);
  }

  /** For SHA-384 only the first six words are turned around, and only they are part of the digest. */
  lemma Swapped512(alg: Alg, was: seq<bv8>, hash: seq<bv8>)
    requires alg == SHA384 || alg == SHA512
    requires |was| == |hash| == SHA_HASH_BYTES
    requires forall k :: 0 <= k < HashBytes(alg) / 8 ==> Load64(hash, k) == Reorder64(Load64(was, k))
    ensures hash[..HashBytes(alg)] == Output(alg, ValueIn(alg, was))
  {
    hide Load64, Reorder64, Bytes64;
    SwappedAt64(hash, 0, Load64(was, 0)); SwappedAt64(hash, 1, Load64(was, 1)); SwappedAt64(hash, 2, Load64(was, 2));
    SwappedAt64(hash, 3, Load64(was, 3)); SwappedAt64(hash, 4, Load64(was, 4)); SwappedAt64(hash, 5, Load64(was, 5));
    Next(hash, 8, 16); Next(hash, 16, 24); Next(hash, 24, 32); Next(hash, 32, 40); Next(hash, 40, 48);
    var w := ValueIn(alg, was).v512;
    if alg == SHA384 {
      assert (hash[..48] + Bytes64(w.g) + Bytes64(w.h))[..48] == hash[..48];
    } else {
      SwappedAt64(hash, 6, Load64(was, 6)); SwappedAt64(hash, 7, Load64(was, 7));
      Next(hash, 48, 56); Next(hash, 56, 64);
    }
  }

  /** Two slices that meet, and one cut out of a prefix. */
  lemma Window(b: seq<bv8>, i: nat, j: nat, k: nat)
    requires i <= j <= k <= |b|
    ensures b[i..k] == b[i..j] + b[j..k] && b[i..j] == b[..j][i..] && b[..i] == b[..j][..i]
  {
  }

  lemma Next(b: seq<bv8>, k: nat, n: nat)
    requires k <= n <= |b|
    ensures b[..n] == b[..k] + b[k..n] && b[0..k] == b[..k]
  {
  }

  // ----- any way of splitting the message -----

  function Joined(pieces: seq<seq<bv8>>): seq<bv8> {
    if pieces == [] then [] else Joined(pieces[..|pieces| - 1]) + pieces[|pieces| - 1]
  }

  lemma AlgOfType(alg: Alg)
    ensures AlgOf(TypeOf(alg)) == Some(alg)
  {
  }

  lemma JoinedUpTo(pieces: seq<seq<bv8>>, n: nat)
    requires n <= |pieces|
    ensures Joined(pieces[..n]) == if n == 0 then [] else Joined(pieces[..n - 1]) + pieces[n - 1]
    ensures n == |pieces| ==> pieces[..n] == pieces
  {
    if n > 0 {
      assert pieces[..n][..n - 1] == pieces[..n - 1];
    }
  }

  /** Initializing, any number of updates with any pieces, and finishing give the digest of the whole. */
  method HashInPieces(alg: Alg, pieces: seq<seq<bv8>>) returns (digest: seq<bv8>)
    ensures digest == Digest(alg, Joined(pieces))
  {
    JoinedUpTo(pieces, 0);
    AlgOfType(alg);
    hide Digest, AlgOf, TypeOf, Joined, Context.Running;
    var context := new Context();
    context.Init(TypeOf(alg));
    for i := 0 to |pieces|
      invariant context.Running(alg) && context.message == Joined(pieces[..i])
      invariant fresh(context) && fresh(context.hash) && fresh(context.block)
      invariant context.blockSize > 0
    {
      JoinedUpTo(pieces, i + 1);
      context.Update(Some(pieces[i]), alg);
    }
    JoinedUpTo(pieces, |pieces|);
    context.Finish(alg);
    digest := context.hash[..HashBytes(alg)];
  }

  lemma NoZeros()
    ensures Zeros(0) == []
  {
  }

  lemma FirstRest(tail: seq<bv8>, zeros: nat, fewer: nat)
    requires fewer <= zeros
    ensures (tail + [0x80] + Zeros(zeros))[..|tail| + 1 + fewer] == tail + [0x80] + Zeros(fewer)
  {
  }

  lemma FirstZeros(z: seq<bv8>, n: nat, k: nat)
    requires z == Zeros(n) && k <= n
    ensures z[..k] == Zeros(k)
  {
  }

  /** The message after `n` bytes more. */
  function Extended(m: seq<bv8>, s: seq<bv8>, n: nat): seq<bv8>
    requires n <= |s|
  {
    m + s[..n]
  }

  lemma NothingYet(m: seq<bv8>, s: seq<bv8>)
    ensures Extended(m, s, 0) == m
  {
  }

  lemma NextPiece(m: seq<bv8>, s: seq<bv8>, a: nat, b: nat)
    requires a <= b <= |s|
    ensures Extended(m, s, a) + s[a..b] == Extended(m, s, b)
    ensures b == |s| ==> s[a..b] == s[a..] && Extended(m, s, b) == m + s
  {
  }

  lemma Block1(b: seq<bv8>)
    requires |b| >= 64
    ensures Sha1.Block(b[..64]) == Sha1.Block(b)
  {
  }

  lemma Block256(b: seq<bv8>)
    requires |b| >= 64
    ensures Sha256.Block(b[..64]) == Sha256.Block(b)
  {
  }
}
