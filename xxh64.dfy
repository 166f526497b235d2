/**
 * xxHash64 with an explicit seed: the static operations of the hasher.
 *
 * Every Java `long` is a `bv64`, so `+`, `-`, `*` wrap modulo 2^64, `>>` is the
 * logical shift `>>>` and `RotateLeft` is `Long.rotateLeft`. A Java `int`
 * argument is its 32-bit pattern, a `bv32`; `input & 0xFFFFFFFFL` is its
 * zero extension `input as bv64`.
 *
 * The straight-line operations (`Fmix`, `HashInt`, `HashLong`) are functions.
 * The loops (`HashBytesByWordsBlock`, `HashUnsafeBytesBlock`) are methods, each
 * proved equal to a recursive specification function (`WordsBlock`,
 * `HashBytes`) that consumes the buffer from a given offset onwards.
 */
module XxHash64 {
  import opened MemoryBlock

  const PRIME64_1: bv64 := 0x9E3779B185EBCA87
  const PRIME64_2: bv64 := 0xC2B2AE3D27D4EB4F
  const PRIME64_3: bv64 := 0x165667B19E3779F9
  const PRIME64_4: bv64 := 0x85EBCA77C2B2AE63
  const PRIME64_5: bv64 := 0x27D4EB2F165667C5

  // ---------------------------------------------------------------------------
  // Final avalanche mix
  // ---------------------------------------------------------------------------

  /** `h ^= h >>> n`. */
  function XorShift(h: bv64, n: nat): bv64
    requires n <= 64
  {
    h ^ (h >> n)
  }

  /** `h *= PRIME64_2`, with the prime written out so that its inverse can be checked. */
  function MulPrime2(h: bv64): bv64
  {
    h * 0xC2B2AE3D27D4EB4F
  }

  /** `h *= PRIME64_3`, with the prime written out so that its inverse can be checked. */
  function MulPrime3(h: bv64): bv64
  {
    h * 0x165667B19E3779F9
  }

  /** The avalanche mix applied last on every path. */
  function Fmix(hash: bv64): bv64
  {
    XorShift(MulPrime3(XorShift(MulPrime2(XorShift(hash, 33)), 29)), 32)
  }

  /** Undoes `h ^= h >>> 29`. */
  function UnXorShift29(h: bv64): bv64
  {
    h ^ (h >> 29) ^ (h >> 58)
  }

  /** Undoes `MulPrime2`: multiplies by the inverse of PRIME64_2 modulo 2^64. */
  function UnMulPrime2(h: bv64): bv64
  {
    h * 0x0BA79078168D4BAF
  }

  /** Undoes `MulPrime3`: multiplies by the inverse of PRIME64_3 modulo 2^64. */
  function UnMulPrime3(h: bv64): bv64
  {
    h * 0xE9E9F4C41D6DF849
  }

  /** Undoes `Fmix` step by step, last step first. */
  function FmixInverse(r: bv64): bv64
  {
    XorShift(UnMulPrime2(UnXorShift29(UnMulPrime3(XorShift(r, 32)))), 33)
  }

  lemma XorShift32Involution(h: bv64)
    ensures XorShift(XorShift(h, 32), 32) == h
  {
    assert XorShift(h ^ (h >> 32), 32) == h;
  }

  lemma XorShift33Involution(h: bv64)
    ensures XorShift(XorShift(h, 33), 33) == h
  {
    assert XorShift(h ^ (h >> 33), 33) == h;
  }

  lemma XorShift29Inverse(h: bv64)
    ensures UnXorShift29(XorShift(h, 29)) == h
    ensures XorShift(UnXorShift29(h), 29) == h
  {
    assert UnXorShift29(h ^ (h >> 29)) == h;
    assert XorShift(h ^ (h >> 29) ^ (h >> 58), 29) == h;
  }

  lemma MulPrime2Inverse(h: bv64)
    ensures UnMulPrime2(MulPrime2(h)) == h
    ensures MulPrime2(UnMulPrime2(h)) == h
  {
    assert UnMulPrime2(h * 0xC2B2AE3D27D4EB4F) == h;
    assert MulPrime2(h * 0x0BA79078168D4BAF) == h;
  }

  lemma MulPrime3Inverse(h: bv64)
    ensures UnMulPrime3(MulPrime3(h)) == h
    ensures MulPrime3(UnMulPrime3(h)) == h
  {
    assert UnMulPrime3(h * 0x165667B19E3779F9) == h;
    assert MulPrime3(h * 0xE9E9F4C41D6DF849) == h;
  }

  /**
   * The avalanche mix is a bijection on 64-bit values: `FmixInverse` undoes it
   * and it undoes `FmixInverse`.
   */
  lemma FmixBijective(h: bv64, r: bv64)
    ensures FmixInverse(Fmix(h)) == h
    ensures Fmix(FmixInverse(r)) == r
  {
    var h1 := XorShift(h, 33);
    var h2 := MulPrime2(h1);
    var h3 := XorShift(h2, 29);
    var h4 := MulPrime3(h3);
    XorShift32Involution(h4);
    MulPrime3Inverse(h3);
    XorShift29Inverse(h2);
    MulPrime2Inverse(h1);
    XorShift33Involution(h);

    var g4 := XorShift(r, 32);
    var g3 := UnMulPrime3(g4);
    var g2 := UnXorShift29(g3);
    var g1 := UnMulPrime2(g2);
    XorShift33Involution(g1);
    MulPrime2Inverse(g2);
    XorShift29Inverse(g3);
    MulPrime3Inverse(g4);
    XorShift32Involution(r);
  }

  /** The final mix never merges two intermediate hashes into one output. */
  lemma FmixInjective(a: bv64, b: bv64)
    ensures Fmix(a) == Fmix(b) <==> a == b
  {
    FmixBijective(a, 0);
    FmixBijective(b, 0);
  }

  // ---------------------------------------------------------------------------
  // Mixing steps
  //
  // The multipliers and addends below are the primes written out as literals:
  // 0x9E3779B185EBCA87 is PRIME64_1, 0xC2B2AE3D27D4EB4F is PRIME64_2,
  // 0x165667B19E3779F9 is PRIME64_3, 0x85EBCA77C2B2AE63 is PRIME64_4 and
  // 0x27D4EB2F165667C5 is PRIME64_5.
  // ---------------------------------------------------------------------------

  /** One lane round: add a word, rotate by 31, multiply. */
  function Round(acc: bv64, input: bv64): bv64
  {
    (acc + input * 0xC2B2AE3D27D4EB4F).RotateLeft(31) * 0x9E3779B185EBCA87
  }

  /** Folds one lane into the running hash after the stripe loop. */
  function MergeLane(hash: bv64, lane: bv64): bv64
  {
    (hash ^ Round(0, lane)) * 0x9E3779B185EBCA87 + 0x85EBCA77C2B2AE63
  }

  /** Consumes one whole 8-byte word after the lanes have been folded. */
  function WordStep(hash: bv64, k: bv64): bv64
  {
    (hash ^ Round(0, k)).RotateLeft(27) * 0x9E3779B185EBCA87 + 0x85EBCA77C2B2AE63
  }

  /** Consumes one 4-byte word (zero extended). */
  function HalfWordStep(hash: bv64, k: bv32): bv64
  {
    (hash ^ ((k as bv64) * 0x9E3779B185EBCA87)).RotateLeft(23) * 0xC2B2AE3D27D4EB4F + 0x165667B19E3779F9
  }

  /** Consumes one byte (zero extended). */
  function ByteStep(hash: bv64, b: bv8): bv64
  {
    (hash ^ ((b as bv64) * 0x27D4EB2F165667C5)).RotateLeft(11) * 0x9E3779B185EBCA87
  }

  // ---------------------------------------------------------------------------
  // Specification of the buffer paths
  // ---------------------------------------------------------------------------

  /** The four accumulator lanes of the stripe loop. */
  datatype Lanes = Lanes(v1: bv64, v2: bv64, v3: bv64, v4: bv64)

  function InitLanes(seed: bv64): Lanes
  {
    Lanes(seed + PRIME64_1 + PRIME64_2, seed + PRIME64_2, seed, seed - PRIME64_1)
  }

  /** One 32-byte stripe at offset `o`: each lane takes one of its four words. */
  function Stripe(l: Lanes, mb: Block, o: nat): Lanes
    requires o + 32 <= |mb|
  {
    Lanes(Round(l.v1, GetLong(mb, o)), Round(l.v2, GetLong(mb, o + 8)),
          Round(l.v3, GetLong(mb, o + 16)), Round(l.v4, GetLong(mb, o + 24)))
  }

  /** The lanes after consuming every whole stripe from offset `o` on. */
  function Stripes(l: Lanes, mb: Block, o: nat): Lanes
    requires o <= |mb|
    decreases |mb| - o
  {
    if o + 32 <= |mb| then Stripes(Stripe(l, mb, o), mb, o + 32) else l
  }

  /** The rotated sum that starts the convergence of the lanes. */
  function LaneSum(l: Lanes): bv64
  {
    l.v1.RotateLeft(1) + l.v2.RotateLeft(7) + l.v3.RotateLeft(12) + l.v4.RotateLeft(18)
  }

  /** Folds the four lanes into one running hash. */
  function Converge(l: Lanes): bv64
  {
    MergeLane(MergeLane(MergeLane(MergeLane(LaneSum(l), l.v1), l.v2), l.v3), l.v4)
  }

  /** Where the stripe loop stops: after the last whole stripe, or 0 when it is skipped. */
  function StripeEnd(length: nat): nat
  {
    if length >= 32 then 32 * (length / 32) else 0
  }

  /** The running hash after the lanes: converged over every whole stripe, or `seed + PRIME64_5` below 32 bytes. */
  function LanesHash(mb: Block, seed: bv64): bv64
  {
    if |mb| >= 32 then Converge(Stripes(InitLanes(seed), mb, 0)) else seed + PRIME64_5
  }

  /** Adds a buffer length, as a Java `long`, to the running hash. */
  function AddLength(hash: bv64, length: nat): bv64
    requires length <= MaxSize
  {
    hash + AsLong(length)
  }

  /** The running hash once the length has been added. */
  function StartHash(mb: Block, seed: bv64): bv64
  {
    AddLength(LanesHash(mb, seed), |mb|)
  }

  /** The hash after consuming every whole 8-byte word from offset `o` on. */
  function WordSteps(hash: bv64, mb: Block, o: nat): bv64
    requires o <= |mb|
    decreases |mb| - o
  {
    if o + 8 <= |mb| then WordSteps(WordStep(hash, GetLong(mb, o)), mb, o + 8) else hash
  }

  /** The value `hashBytesByWordsBlock` returns. */
  function WordsBlock(mb: Block, seed: bv64): bv64
  {
    WordSteps(StartHash(mb, seed), mb, StripeEnd(|mb|))
  }

  /** The hash after consuming every byte from offset `o` on, one at a time. */
  function ByteSteps(hash: bv64, mb: Block, o: nat): bv64
    requires o <= |mb|
    decreases |mb| - o
  {
    if o < |mb| then ByteSteps(ByteStep(hash, GetByte(mb, o)), mb, o + 1) else hash
  }

  /** The tail after the whole words: one optional 4-byte step, then single bytes. */
  function Tail(hash: bv64, mb: Block, o: nat): bv64
    requires o <= |mb|
  {
    if o + 4 <= |mb| then ByteSteps(HalfWordStep(hash, GetInt(mb, o)), mb, o + 4) else ByteSteps(hash, mb, o)
  }

  /** The offset where the whole words end: the length rounded down to a multiple of 8. */
  function WordsEnd(length: nat): nat
  {
    length - length % 8
  }

  /** The value `hashUnsafeBytesBlock` returns. */
  function HashBytes(mb: Block, seed: bv64): bv64
  {
    Fmix(Tail(WordsBlock(mb, seed), mb, WordsEnd(|mb|)))
  }

  // ---------------------------------------------------------------------------
  // Unfolding the specification
  // ---------------------------------------------------------------------------

  // Adding a literal length. These restate `AddLength` for the solver, which
  // handles bv64 congruence poorly; they carry no content of their own.

  lemma AddLengthZero(hash: bv64)
    ensures AddLength(hash, 0) == hash
  {
  }

  lemma AddLengthOne(hash: bv64)
    ensures AddLength(hash, 1) == hash + 1
  {
  }

  lemma AddLengthFour(hash: bv64)
    ensures AddLength(hash, 4) == hash + 4
  {
  }

  lemma AddLengthEight(hash: bv64)
    ensures AddLength(hash, 8) == hash + 8
  {
  }

  /** Restates `WordsBlock` as a solver aid. */
  lemma WordsBlockUnfold(mb: Block, seed: bv64)
    ensures WordsBlock(mb, seed) == WordSteps(StartHash(mb, seed), mb, StripeEnd(|mb|))
  {
  }

  lemma StripeEndShort(length: nat)
    requires length < 32
    ensures StripeEnd(length) == 0
  {
  }

  /** Fewer than 8 bytes remain: no whole word is consumed. */
  lemma WordStepsNone(hash: bv64, mb: Block, o: nat)
    requires o <= |mb| < o + 8
    ensures WordSteps(hash, mb, o) == hash
  {
  }

  /** Exactly 8 bytes remain: one whole word is consumed. */
  lemma WordStepsOne(hash: bv64, mb: Block, o: nat)
    requires o + 8 == |mb|
    ensures WordSteps(hash, mb, o) == WordStep(hash, GetLong(mb, o))
  {
    WordStepsNone(WordStep(hash, GetLong(mb, o)), mb, o + 8);
  }

  /** Below 32 bytes the lanes are skipped: the words start from `seed + PRIME64_5` plus the length, at offset 0. */
  lemma ShortInput(mb: Block, seed: bv64)
    requires |mb| < 32
    ensures LanesHash(mb, seed) == seed + PRIME64_5
    ensures WordsBlock(mb, seed) == WordSteps(StartHash(mb, seed), mb, 0)
  {
    WordsBlockUnfold(mb, seed);
    StripeEndShort(|mb|);
  }

  /** A 4-byte buffer starts its words from `seed + PRIME64_5 + 4`. */
  lemma StartFour(mb: Block, seed: bv64)
    requires |mb| == 4
    ensures StartHash(mb, seed) == seed + PRIME64_5 + 4
  {
    ShortInput(mb, seed);
    AddLengthFour(seed + PRIME64_5);
  }

  /** A 4-byte buffer has no whole word: the words block is the start hash. */
  lemma WordsBlockFour(mb: Block, seed: bv64)
    requires |mb| == 4
    ensures WordsBlock(mb, seed) == seed + PRIME64_5 + 4
  {
    ShortInput(mb, seed);
    WordStepsNone(StartHash(mb, seed), mb, 0);
    StartFour(mb, seed);
  }

  /** On a 4-byte buffer the tail is the single 4-byte step. */
  lemma TailFour(hash: bv64, mb: Block)
    requires |mb| == 4
    ensures Tail(hash, mb, WordsEnd(|mb|)) == HalfWordStep(hash, GetInt(mb, 0))
  {
    assert WordsEnd(|mb|) == 0;
  }

  /** The buffer path on the 4 little-endian bytes of `input`, before the final mix. */
  lemma IntTail(input: bv32, seed: bv64)
    ensures Tail(WordsBlock(LittleEndian32(input), seed), LittleEndian32(input), WordsEnd(4))
         == HalfWordStep(seed + PRIME64_5 + 4, input)
  {
    var mb := LittleEndian32(input);
    WordsBlockFour(mb, seed);
    TailFour(WordsBlock(mb, seed), mb);
    GetIntOfLittleEndian32(input);
  }

  /** An 8-byte buffer starts its words from `seed + PRIME64_5 + 8`. */
  lemma StartEight(mb: Block, seed: bv64)
    requires |mb| == 8
    ensures StartHash(mb, seed) == seed + PRIME64_5 + 8
  {
    ShortInput(mb, seed);
    AddLengthEight(seed + PRIME64_5);
  }

  /** An 8-byte buffer is one whole word. */
  lemma WordsBlockEight(mb: Block, seed: bv64)
    requires |mb| == 8
    ensures WordsBlock(mb, seed) == WordStep(seed + PRIME64_5 + 8, GetLong(mb, 0))
  {
    ShortInput(mb, seed);
    WordStepsOne(StartHash(mb, seed), mb, 0);
    StartEight(mb, seed);
  }

  /** On an 8-byte buffer no tail remains. */
  lemma TailEight(hash: bv64, mb: Block)
    requires |mb| == 8
    ensures Tail(hash, mb, WordsEnd(|mb|)) == hash
  {
    assert WordsEnd(|mb|) == 8;
  }

  /** The buffer path on the 8 little-endian bytes of `input`, before the final mix. */
  lemma LongTail(input: bv64, seed: bv64)
    ensures Tail(WordsBlock(LittleEndian64(input), seed), LittleEndian64(input), WordsEnd(8))
         == WordStep(seed + PRIME64_5 + 8, input)
  {
    var mb := LittleEndian64(input);
    WordsBlockEight(mb, seed);
    TailEight(WordsBlock(mb, seed), mb);
    GetLongOfLittleEndian64(input);
  }

  /** At least 32 bytes from `o` on: one stripe is consumed. */
  lemma StripesStep(l: Lanes, mb: Block, o: nat)
    requires o + 32 <= |mb|
    ensures Stripes(l, mb, o) == Stripes(Stripe(l, mb, o), mb, o + 32)
  {
  }

  /** Fewer than 32 bytes from `o` on: no stripe is consumed. */
  lemma StripesNone(l: Lanes, mb: Block, o: nat)
    requires o <= |mb| < o + 32
    ensures Stripes(l, mb, o) == l
  {
  }

  /** At least 8 bytes from `o` on: one word is consumed. */
  lemma WordStepsStep(hash: bv64, mb: Block, o: nat)
    requires o + 8 <= |mb|
    ensures WordSteps(hash, mb, o) == WordSteps(WordStep(hash, GetLong(mb, o)), mb, o + 8)
  {
  }

  // Restatements of `Converge` and of the long branch of `LanesHash`, as solver aids.

  lemma ConvergeUnfold(l: Lanes)
    ensures Converge(l) == MergeLane(MergeLane(MergeLane(MergeLane(LaneSum(l), l.v1), l.v2), l.v3), l.v4)
  {
  }

  lemma LanesHashLong(mb: Block, seed: bv64)
    requires |mb| >= 32
    ensures LanesHash(mb, seed) == Converge(Stripes(InitLanes(seed), mb, 0))
  {
  }

  /** Restates `StartHash` for a hash equal to the lanes' hash, as a solver aid. */
  lemma LengthAdded(mb: Block, seed: bv64, hash: bv64)
    requires hash == LanesHash(mb, seed)
    ensures AddLength(hash, |mb|) == StartHash(mb, seed)
  {
  }

  /** The stripe loop ends at a multiple of 8 within the buffer. */
  lemma StripeEndAligned(length: nat)
    ensures StripeEnd(length) % 8 == 0 && StripeEnd(length) <= length
  {
    if length >= 32 {
      var q := length / 32;
      assert StripeEnd(length) == 32 * q;
      assert 32 * q == 8 * (4 * q);
    }
  }

  /** At least one byte from `o` on: one byte is consumed. */
  lemma ByteStepsStep(hash: bv64, mb: Block, o: nat)
    requires o < |mb|
    ensures ByteSteps(hash, mb, o) == ByteSteps(ByteStep(hash, GetByte(mb, o)), mb, o + 1)
  {
  }

  /** No byte remains. */
  lemma ByteStepsNone(hash: bv64, mb: Block)
    ensures ByteSteps(hash, mb, |mb|) == hash
  {
  }

  /** The tail with its 4-byte step taken. */
  lemma TailWithFourBytes(hash: bv64, mb: Block, o: nat)
    requires o + 4 <= |mb|
    ensures Tail(hash, mb, o) == ByteSteps(HalfWordStep(hash, GetInt(mb, o)), mb, o + 4)
  {
  }

  /** The tail without a 4-byte step. */
  lemma TailBytesOnly(hash: bv64, mb: Block, o: nat)
    requires o <= |mb| < o + 4
    ensures Tail(hash, mb, o) == ByteSteps(hash, mb, o)
  {
  }

  /** Where the tail starts, whether the 4-byte step runs, and how many single bytes follow. */
  lemma TailArithmetic(length: nat)
    ensures WordsEnd(length) == length - length % 8
    ensures length - WordsEnd(length) == length % 8
    ensures length % 8 >= 4 ==> length % 8 - 4 == length % 8 % 4
    ensures length % 8 < 4 ==> length % 8 == length % 8 % 4
  {
  }

  // Restatements of `HashBytes`, as solver aids.

  lemma HashBytesUnfold(mb: Block, seed: bv64)
    ensures HashBytes(mb, seed) == Fmix(Tail(WordsBlock(mb, seed), mb, WordsEnd(|mb|)))
  {
  }

  /** Mixing the tail's hash gives the buffer's hash. */
  lemma HashBytesOfTail(mb: Block, seed: bv64, tail: bv64)
    requires tail == Tail(WordsBlock(mb, seed), mb, WordsEnd(|mb|))
    ensures Fmix(tail) == HashBytes(mb, seed)
  {
  }

  /** The stripe loop stops at the length rounded down to a multiple of 32. */
  lemma StripeLoopEnd(offset: nat, length: nat, stripes: nat)
    requires offset == 32 * stripes && offset <= length < offset + 32
    ensures offset == 32 * (length / 32)
  {
  }

  /** The word loop, started at a multiple of 8, stops at the length rounded down to a multiple of 8. */
  lemma WordLoopEnd(offset: nat, length: nat, start: nat, words: nat)
    requires start % 8 == 0 && offset == start + 8 * words && offset <= length < offset + 8
    ensures offset == length - length % 8
  {
  }

  /** One stripe consumed, lane by lane: `StripesStep` with `Stripe` spelled out, as a solver aid. */
  lemma StripeAdvance(v1: bv64, v2: bv64, v3: bv64, v4: bv64, mb: Block, o: nat)
    requires o + 32 <= |mb|
    ensures Stripes(Lanes(v1, v2, v3, v4), mb, o)
         == Stripes(Lanes(Round(v1, GetLong(mb, o)), Round(v2, GetLong(mb, o + 8)),
                          Round(v3, GetLong(mb, o + 16)), Round(v4, GetLong(mb, o + 24))), mb, o + 32)
  {
    StripesStep(Lanes(v1, v2, v3, v4), mb, o);
  }

  // ---------------------------------------------------------------------------
  // Scalar fast paths
  // ---------------------------------------------------------------------------

  /** Hashes a 32-bit value without a buffer; equal to hashing its 4 little-endian bytes. */
  function HashInt(input: bv32, seed: bv64): (r: bv64)
    ensures r == HashBytes(LittleEndian32(input), seed)
  {
    var hash := seed + PRIME64_5 + 4;
    IntTail(input, seed);
    Fmix(HalfWordStep(hash, input))
  }

  /** Hashes a 64-bit value without a buffer; equal to hashing its 8 little-endian bytes. */
  function HashLong(input: bv64, seed: bv64): (r: bv64)
    ensures r == HashBytes(LittleEndian64(input), seed)
  {
    var hash := seed + PRIME64_5 + 8;
    LongTail(input, seed);
    Fmix(WordStep(hash, input))
  }

  // ---------------------------------------------------------------------------
  // Buffer paths
  // ---------------------------------------------------------------------------

  /**
   * The stripe loop of `hashBytesByWordsBlock`: from the initial lanes, each
   * 32-byte stripe feeds one 8-byte word to each lane. The source writes it as
   * a do-while; at entry its test holds, so a while loop runs the same stripes.
   */
  method ConsumeStripes(mb: Block, seed: bv64) returns (lanes: Lanes, offset: nat)
    requires |mb| >= 32
    ensures lanes == Stripes(InitLanes(seed), mb, 0)
    ensures offset == 32 * (|mb| / 32)
  {
    offset := 0;
    var length: nat := |mb|;
    var limit: nat := length - 32;
    var v1, v2, v3, v4 := seed + PRIME64_1 + PRIME64_2, seed + PRIME64_2, seed, seed - PRIME64_1;
    ghost var stripes: nat := 0;
    while offset <= limit
      invariant offset <= length && offset == 32 * stripes
      invariant Stripes(Lanes(v1, v2, v3, v4), mb, offset) == Stripes(InitLanes(seed), mb, 0)
      decreases length - offset
    {
      StripeAdvance(v1, v2, v3, v4, mb, offset);
      v1 := Round(v1, GetLong(mb, offset));
      v2 := Round(v2, GetLong(mb, offset + 8));
      v3 := Round(v3, GetLong(mb, offset + 16));
      v4 := Round(v4, GetLong(mb, offset + 24));
      offset := offset + 32;
      stripes := stripes + 1;
    }
    StripesNone(Lanes(v1, v2, v3, v4), mb, offset);
    StripeLoopEnd(offset, length, stripes);
    lanes := Lanes(v1, v2, v3, v4);
  }

  /**
   * The whole-word loop of `hashBytesByWordsBlock`: from a word-aligned
   * `start`, every remaining 8-byte word is consumed.
   */
  method ConsumeWords(start: nat, hash0: bv64, mb: Block) returns (hash: bv64, offset: nat)
    requires start <= |mb| && start % 8 == 0
    ensures hash == WordSteps(hash0, mb, start)
    ensures offset == |mb| - |mb| % 8
  {
    offset := start;
    hash := hash0;
    var length: nat := |mb|;
    ghost var words: nat := 0;
    var limit: int := length - 8;
    while offset <= limit
      invariant offset <= length && offset == start + 8 * words
      invariant WordSteps(hash, mb, offset) == WordSteps(hash0, mb, start)
      decreases length - offset
    {
      WordStepsStep(hash, mb, offset);
      var k1 := GetLong(mb, offset);
      hash := WordStep(hash, k1);
      offset := offset + 8;
      words := words + 1;
    }
    WordStepsNone(hash, mb, offset);
    WordLoopEnd(offset, length, start, words);
  }

  /**
   * `hashBytesByWordsBlock`: the lanes over the whole stripes (or
   * `seed + PRIME64_5` below 32 bytes), plus the length, then every remaining
   * whole word. `stripeEnd` is where the stripe loop stops, `consumed` where
   * the word loop stops.
   */
  method HashBytesByWordsBlock(mb: Block, seed: bv64) returns (hash: bv64, ghost stripeEnd: nat, ghost consumed: nat)
    ensures hash == WordsBlock(mb, seed)
    ensures stripeEnd == (if |mb| >= 32 then 32 * (|mb| / 32) else 0)
    ensures consumed == |mb| - |mb| % 8
  {
    var offset: nat := 0;
    var length: nat := |mb|;
    if length >= 32 {
      var lanes;
      lanes, offset := ConsumeStripes(mb, seed);
      hash := LaneSum(lanes);
      hash := MergeLane(hash, lanes.v1);
      hash := MergeLane(hash, lanes.v2);
      hash := MergeLane(hash, lanes.v3);
      hash := MergeLane(hash, lanes.v4);
      ConvergeUnfold(lanes);
      LanesHashLong(mb, seed);
    } else {
      hash := seed + PRIME64_5;
      ShortInput(mb, seed);
    }
    stripeEnd := offset;

    LengthAdded(mb, seed, hash);
    hash := AddLength(hash, |mb|);
    WordsBlockUnfold(mb, seed);
    StripeEndAligned(|mb|);
    hash, offset := ConsumeWords(offset, hash, mb);
    consumed := offset;
  }

  /** The single-byte loop of `hashUnsafeBytesBlock`, from `start` to the end of the buffer. */
  method ConsumeBytes(start: nat, hash0: bv64, mb: Block) returns (hash: bv64, ghost steps: nat)
    requires start <= |mb|
    ensures hash == ByteSteps(hash0, mb, start)
    ensures steps == |mb| - start
  {
    var offset := start;
    var end: nat := |mb|;
    hash := hash0;
    steps := 0;
    while offset < end
      invariant start <= offset <= end
      invariant steps == offset - start
      invariant ByteSteps(hash, mb, offset) == ByteSteps(hash0, mb, start)
      decreases end - offset
    {
      ByteStepsStep(hash, mb, offset);
      hash := ByteStep(hash, GetByte(mb, offset));
      offset := offset + 1;
      steps := steps + 1;
    }
    ByteStepsNone(hash, mb);
  }

  /** The tail after the whole words: the optional 4-byte step, then the byte loop. */
  method ConsumeTail(start: nat, hash0: bv64, mb: Block) returns (hash: bv64, ghost fourByteStep: bool, ghost byteSteps: nat)
    requires start <= |mb| < start + 8
    ensures hash == Tail(hash0, mb, start)
    ensures fourByteStep <==> |mb| - start >= 4
    ensures byteSteps == if fourByteStep then |mb| - start - 4 else |mb| - start
  {
    var offset := start;
    var end := |mb|;
    hash := hash0;
    fourByteStep := false;
    if offset + 4 <= end {
      TailWithFourBytes(hash, mb, offset);
      hash := HalfWordStep(hash, GetInt(mb, offset));
      offset := offset + 4;
      fourByteStep := true;
    } else {
      TailBytesOnly(hash, mb, offset);
    }
    hash, byteSteps := ConsumeBytes(offset, hash, mb);
  }

  /**
   * `hashUnsafeBytesBlock`, the general buffer path: the words block, then one
   * 4-byte step when at least 4 bytes remain, then single bytes, then the
   * final mix. `fourByteStep` records whether the 4-byte step ran and
   * `byteSteps` how many single bytes were consumed.
   */
  method HashUnsafeBytesBlock(mb: Block, seed: bv64) returns (hash: bv64, ghost fourByteStep: bool, ghost byteSteps: nat)
    ensures hash == HashBytes(mb, seed)
    ensures fourByteStep <==> |mb| % 8 >= 4
    ensures byteSteps == |mb| % 8 % 4 && byteSteps <= 3
  {
    var length: nat := |mb|;
    ghost var stripeEnd: nat, consumed: nat;
    hash, stripeEnd, consumed := HashBytesByWordsBlock(mb, seed);
    // `length & -8`: the length, never negative, rounded down to a multiple of 8
    var offset: nat := length - length % 8;
    TailArithmetic(length);
    hash, fourByteStep, byteSteps := ConsumeTail(offset, hash, mb);
    HashBytesOfTail(mb, seed, hash);
    hash := Fmix(hash);
  }

  /**
   * `hashUnsafeWordsBlock`: the words block and the final mix. The source
   * asserts that the length is a multiple of 8; on such a buffer the result
   * equals the general path's.
   */
  method HashUnsafeWordsBlock(mb: Block, seed: bv64) returns (hash: bv64)
    requires |mb| % 8 == 0
    ensures hash == Fmix(WordsBlock(mb, seed))
    ensures hash == HashBytes(mb, seed)
  {
    var h;
    ghost var stripeEnd: nat, consumed: nat;
    h, stripeEnd, consumed := HashBytesByWordsBlock(mb, seed);
    hash := Fmix(h);
    WordsBlockMatchesBytesBlock(mb, seed);
  }

  // ---------------------------------------------------------------------------
  // Properties of the specification
  // ---------------------------------------------------------------------------

  /** On a word-aligned buffer the tail steps do nothing. */
  lemma WordsBlockMatchesBytesBlock(mb: Block, seed: bv64)
    requires |mb| % 8 == 0
    ensures HashBytes(mb, seed) == Fmix(WordsBlock(mb, seed))
  {
    HashBytesUnfold(mb, seed);
    assert WordsEnd(|mb|) == |mb|;
    TailBytesOnly(WordsBlock(mb, seed), mb, |mb|);
    ByteStepsNone(WordsBlock(mb, seed), mb);
  }

  /** The empty buffer starts its words from `seed + PRIME64_5`. */
  lemma StartEmpty(mb: Block, seed: bv64)
    requires |mb| == 0
    ensures StartHash(mb, seed) == seed + PRIME64_5
  {
    ShortInput(mb, seed);
    AddLengthZero(seed + PRIME64_5);
  }

  /** The empty buffer hashes to the mix of `seed + PRIME64_5`. */
  lemma EmptyInput(seed: bv64)
    ensures HashBytes([], seed) == Fmix(seed + PRIME64_5)
  {
    var mb: Block := [];
    ShortInput(mb, seed);
    StartEmpty(mb, seed);
    WordStepsNone(StartHash(mb, seed), mb, 0);
    WordsBlockMatchesBytesBlock(mb, seed);
  }

  /** A one-byte buffer starts its words from `seed + PRIME64_5 + 1`. */
  lemma StartOne(mb: Block, seed: bv64)
    requires |mb| == 1
    ensures StartHash(mb, seed) == seed + PRIME64_5 + 1
  {
    ShortInput(mb, seed);
    AddLengthOne(seed + PRIME64_5);
  }

  /** A one-byte buffer takes no word and no 4-byte step: one byte step, then the mix. */
  lemma SingleByte(b: bv8, seed: bv64)
    ensures HashBytes([b], seed) == Fmix(ByteStep(seed + PRIME64_5 + 1, b))
  {
    var mb: Block := [b];
    ShortInput(mb, seed);
    StartOne(mb, seed);
    WordStepsNone(StartHash(mb, seed), mb, 0);
    var words := WordsBlock(mb, seed);
    assert WordsEnd(|mb|) == 0;
    TailBytesOnly(words, mb, 0);
    ByteStepsStep(words, mb, 0);
    ByteStepsNone(ByteStep(words, GetByte(mb, 0)), mb);
    HashBytesUnfold(mb, seed);
  }

  // ---------------------------------------------------------------------------
  // Known values
  // ---------------------------------------------------------------------------

  /** The empty buffer under seed 0 hashes to the published xxHash64 value. */
  lemma EmptyVector()
    ensures HashBytes([], 0) == 0xEF46DB3751D8E999
  {
    EmptyInput(0);
    assert Fmix(0 + PRIME64_5) == 0xEF46DB3751D8E999;
  }

  /** The 32-bit value 42 under seed 0. */
  lemma IntVector()
    ensures HashBytes(LittleEndian32(42), 0) == 0xD756D7B62FC50BF1
  {
    assert HashInt(42, 0) == 0xD756D7B62FC50BF1;
  }

  /** The 64-bit value 42 under seed 0. */
  lemma LongVector()
    ensures HashBytes(LittleEndian64(42), 0) == 0xB556806FB6D14353
  {
    assert Round(0, 42) == 0x11C13C8B5C9CB71C;
    assert WordStep(0 + PRIME64_5 + 8, 42) == 0xFB1DE9B5613EF60E;
    assert XorShift(0xFB1DE9B5613EF60E, 33) == 0xFB1DE9B51CB002D4;
    assert MulPrime2(0xFB1DE9B51CB002D4) == 0x2C63B6EE10797B6C;
    assert XorShift(0x2C63B6EE10797B6C, 29) == 0x2C63B6EF7364CC1C;
    assert MulPrime3(0x2C63B6EF7364CC1C) == 0xB556806F0387C33C;
    assert XorShift(0xB556806F0387C33C, 32) == 0xB556806FB6D14353;
  }

  /** The single byte 0x00 under seed 0 hashes to the published xxHash64 value. */
  lemma ZeroByteVector()
    ensures HashBytes([0], 0) == 0xE934A84ADB052768
  {
    SingleByte(0, 0);
    assert ByteStep(0 + PRIME64_5 + 1, 0) == 0xA82DDB360290E3B2;
    FmixOfZeroByte();
  }

  /** The final mix of the hash the byte 0x00 leaves, step by step. */
  lemma FmixOfZeroByte()
    ensures Fmix(0xA82DDB360290E3B2) == 0xE934A84ADB052768
  {
    assert XorShift(0xA82DDB360290E3B2, 33) == 0xA82DDB3656860E29;
    assert MulPrime2(0xA82DDB3656860E29) == 0x74A2D822BB5201A7;
    assert XorShift(0x74A2D822BB5201A7, 29) == 0x74A2D8211E44C0B2;
    assert MulPrime3(0x74A2D8211E44C0B2) == 0xE934A84A32318F22;
    assert XorShift(0xE934A84A32318F22, 32) == 0xE934A84ADB052768;
  }
}
