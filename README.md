# xxHash64 (Spark's `XXH64`)

A Dafny model of the xxHash64 hasher in Spark's Catalyst expressions. The
hasher is a 64-bit non-cryptographic hash function with a 64-bit seed, and
it has three ways in:

- `hashInt` and `hashLong` hash one 32- or 64-bit value directly.
- `hashUnsafeBytesBlock` hashes a byte buffer of any length.
- `hashUnsafeWordsBlock` hashes a buffer whose length is a multiple of 8.

The buffer path works in four stages:

1. Stripe loop. For buffers of at least 32 bytes, four accumulator lanes each
   take one little-endian 64-bit word per 32-byte stripe. The lanes are then
   folded into one running hash. Shorter buffers start from `seed + PRIME64_5`.
2. The buffer length is added.
3. Every remaining whole 8-byte word is mixed in.
4. On the general path only, one 4-byte word is mixed in when at least 4 bytes
   remain, then single bytes. Last comes the avalanche mix `fmix`.

Files:

- `memory_block.dfy` (module `MemoryBlock`): the buffer as a sequence of
  bytes whose length fits in a Java `long`. It has the byte, 32-bit and
  64-bit little-endian readers, and the little-endian encodings of a value.
- `xxh64.dfy` (module `XxHash64`): the static operations.
  - Java `long` arithmetic is `bv64` arithmetic, which wraps modulo 2^64.
  - The straight-line operations are functions.
  - Each loop is a method. Its result is proved equal to a recursive
    specification function that consumes the buffer from an offset onwards
    (`Stripes`, `WordSteps`, `ByteSteps`).
  - `WordsBlock` and `HashBytes` state what the two buffer paths return.
    The properties below are proved about them.
- `hasher.dfy` (module `Hasher`): the `XXH64` object. Its seed is fixed
  at construction, and its instance operations hash with that seed.

## Model

| member | source | states |
|---|---|---|
| XxHash64.Fmix | sql/catalyst/src/main/java/org/apache/spark/sql/catalyst/expressions/XXH64.java:114-121 | the final avalanche mix: xor-shift by 33, multiply by PRIME64_2, xor-shift by 29, multiply by PRIME64_3, xor-shift by 32, all modulo 2^64 |
| XxHash64.Round | sql/catalyst/src/main/java/org/apache/spark/sql/catalyst/expressions/XXH64.java:135-149 | one lane update: add the word times PRIME64_2, rotate left by 31, multiply by PRIME64_1 |
| XxHash64.MergeLane | sql/catalyst/src/main/java/org/apache/spark/sql/catalyst/expressions/XXH64.java:159-181 | folds one lane into the hash: the lane's round from 0, xored in, then times PRIME64_1 plus PRIME64_4 |
| XxHash64.WordStep | sql/catalyst/src/main/java/org/apache/spark/sql/catalyst/expressions/XXH64.java:190-192 | one whole-word step of the word loop |
| XxHash64.HalfWordStep | sql/catalyst/src/main/java/org/apache/spark/sql/catalyst/expressions/XXH64.java:58-59 | the 4-byte step: the zero-extended word times PRIME64_1 xored in, rotate by 23, times PRIME64_2 plus PRIME64_3 (also lines 97-98) |
| XxHash64.ByteStep | sql/catalyst/src/main/java/org/apache/spark/sql/catalyst/expressions/XXH64.java:103-104 | the single-byte step: the zero-extended byte times PRIME64_5 xored in, rotate by 11, times PRIME64_1 |
| XxHash64.InitLanes | sql/catalyst/src/main/java/org/apache/spark/sql/catalyst/expressions/XXH64.java:129-132 | the four lanes start at `seed + PRIME64_1 + PRIME64_2`, `seed + PRIME64_2`, `seed` and `seed - PRIME64_1` |
| XxHash64.Stripes | sql/catalyst/src/main/java/org/apache/spark/sql/catalyst/expressions/XXH64.java:134-152 | the lanes after every whole 32-byte stripe, each stripe feeding words 0, 8, 16 and 24 to lanes 1 to 4 |
| XxHash64.LaneSum | sql/catalyst/src/main/java/org/apache/spark/sql/catalyst/expressions/XXH64.java:154-157 | the sum of the lanes rotated by 1, 7, 12 and 18 |
| XxHash64.Converge | sql/catalyst/src/main/java/org/apache/spark/sql/catalyst/expressions/XXH64.java:154-181 | the rotated sum, then the four lanes merged in order |
| XxHash64.AddLength | sql/catalyst/src/main/java/org/apache/spark/sql/catalyst/expressions/XXH64.java:186 | adds the buffer length, as a Java `long`, to the hash |
| XxHash64.StartHash | sql/catalyst/src/main/java/org/apache/spark/sql/catalyst/expressions/XXH64.java:182-186 | the lanes' hash (or `seed + PRIME64_5` below 32 bytes) plus the length |
| XxHash64.WordsBlock | sql/catalyst/src/main/java/org/apache/spark/sql/catalyst/expressions/XXH64.java:124-195 | the value `hashBytesByWordsBlock` returns: the start hash, then every whole word after the stripes |
| XxHash64.HashBytes | sql/catalyst/src/main/java/org/apache/spark/sql/catalyst/expressions/XXH64.java:89-107 | the value `hashUnsafeBytesBlock` returns: the words block, the optional 4-byte step, the single bytes, then the mix |
| XxHash64.FmixBijective | sql/catalyst/src/main/java/org/apache/spark/sql/catalyst/expressions/XXH64.java:114-121 | the final mix is a bijection on 64-bit values: `FmixInverse` undoes it, and it undoes `FmixInverse` |
| XxHash64.FmixInjective | sql/catalyst/src/main/java/org/apache/spark/sql/catalyst/expressions/XXH64.java:114-121 | two intermediate hashes have the same final mix exactly when they are equal |
| XxHash64.XorShift33Involution | sql/catalyst/src/main/java/org/apache/spark/sql/catalyst/expressions/XXH64.java:115 | `h ^= h >>> 33` undoes itself |
| XxHash64.MulPrime2Inverse | sql/catalyst/src/main/java/org/apache/spark/sql/catalyst/expressions/XXH64.java:116 | multiplying by PRIME64_2 is undone by its inverse modulo 2^64, in both orders |
| XxHash64.XorShift29Inverse | sql/catalyst/src/main/java/org/apache/spark/sql/catalyst/expressions/XXH64.java:117 | `h ^= h >>> 29` is undone by `h ^ h >>> 29 ^ h >>> 58`, in both orders |
| XxHash64.MulPrime3Inverse | sql/catalyst/src/main/java/org/apache/spark/sql/catalyst/expressions/XXH64.java:118 | multiplying by PRIME64_3 is undone by its inverse modulo 2^64, in both orders |
| XxHash64.XorShift32Involution | sql/catalyst/src/main/java/org/apache/spark/sql/catalyst/expressions/XXH64.java:119 | `h ^= h >>> 32` undoes itself |
| XxHash64.HashInt | sql/catalyst/src/main/java/org/apache/spark/sql/catalyst/expressions/XXH64.java:56-61 | the direct 32-bit hash equals the buffer hash of the value's 4 little-endian bytes, for every value and seed |
| XxHash64.HashLong | sql/catalyst/src/main/java/org/apache/spark/sql/catalyst/expressions/XXH64.java:67-72 | the direct 64-bit hash equals the buffer hash of the value's 8 little-endian bytes, for every value and seed |
| XxHash64.IntTail | sql/catalyst/src/main/java/org/apache/spark/sql/catalyst/expressions/XXH64.java:57-60 | on a 4-byte buffer the general path before the mix is one 4-byte step from `seed + PRIME64_5 + 4` |
| XxHash64.LongTail | sql/catalyst/src/main/java/org/apache/spark/sql/catalyst/expressions/XXH64.java:68-71 | on an 8-byte buffer the general path before the mix is one word step from `seed + PRIME64_5 + 8` |
| XxHash64.StartFour | sql/catalyst/src/main/java/org/apache/spark/sql/catalyst/expressions/XXH64.java:57 | a 4-byte buffer's words start from `seed + PRIME64_5 + 4` |
| XxHash64.StartEight | sql/catalyst/src/main/java/org/apache/spark/sql/catalyst/expressions/XXH64.java:68 | an 8-byte buffer's words start from `seed + PRIME64_5 + 8` |
| XxHash64.ConsumeStripes | sql/catalyst/src/main/java/org/apache/spark/sql/catalyst/expressions/XXH64.java:127-152 | the stripe loop leaves the lanes that `Stripes` gives from the initial lanes, and stops at the length rounded down to a multiple of 32 |
| XxHash64.StripeLoopEnd | sql/catalyst/src/main/java/org/apache/spark/sql/catalyst/expressions/XXH64.java:151-152 | a loop that advances by 32 and stops less than 32 bytes from the end stops at the length rounded down to a multiple of 32 |
| XxHash64.StripeEndAligned | sql/catalyst/src/main/java/org/apache/spark/sql/catalyst/expressions/XXH64.java:127-152 | where the stripe loop stops is a multiple of 8 inside the buffer, so the word loop starts word-aligned |
| XxHash64.ShortInput | sql/catalyst/src/main/java/org/apache/spark/sql/catalyst/expressions/XXH64.java:182-184 | below 32 bytes the lanes are skipped: the running hash is `seed + PRIME64_5` and the words start at offset 0 |
| XxHash64.ConsumeWords | sql/catalyst/src/main/java/org/apache/spark/sql/catalyst/expressions/XXH64.java:188-194 | from a word-aligned start, the word loop consumes every remaining whole word (`WordSteps`) and stops at the length rounded down to a multiple of 8 |
| XxHash64.WordLoopEnd | sql/catalyst/src/main/java/org/apache/spark/sql/catalyst/expressions/XXH64.java:188-194 | a loop that starts word-aligned, advances by 8 and stops less than 8 bytes from the end stops at `length - length % 8` |
| XxHash64.HashBytesByWordsBlock | sql/catalyst/src/main/java/org/apache/spark/sql/catalyst/expressions/XXH64.java:123-196 | returns `WordsBlock`; the stripe loop ends at `32 * (length / 32)` (or 0 below 32 bytes) and the word loop at `length - length % 8` |
| XxHash64.ConsumeBytes | sql/catalyst/src/main/java/org/apache/spark/sql/catalyst/expressions/XXH64.java:102-106 | the byte loop consumes every byte from its start to the end (`ByteSteps`), once per remaining byte |
| XxHash64.ConsumeTail | sql/catalyst/src/main/java/org/apache/spark/sql/catalyst/expressions/XXH64.java:96-106 | with fewer than 8 bytes left, the tail takes the 4-byte step exactly when at least 4 bytes remain, then single bytes (`Tail`) |
| XxHash64.TailArithmetic | sql/catalyst/src/main/java/org/apache/spark/sql/catalyst/expressions/XXH64.java:93-94 | the tail starts at `length - length % 8` and `length % 8` bytes remain; what remains after the optional 4-byte step is `length % 8 % 4` (the step count itself is `HashUnsafeBytesBlock`'s ensures) |
| XxHash64.HashUnsafeBytesBlock | sql/catalyst/src/main/java/org/apache/spark/sql/catalyst/expressions/XXH64.java:88-108 | returns `HashBytes`; the 4-byte step runs exactly when `length % 8 >= 4`, and the byte loop runs `length % 8 % 4` (at most 3) times |
| XxHash64.HashUnsafeWordsBlock | sql/catalyst/src/main/java/org/apache/spark/sql/catalyst/expressions/XXH64.java:78-82 | on a buffer whose length is a multiple of 8, returns the mix of `WordsBlock` and equals the general path |
| XxHash64.WordsBlockMatchesBytesBlock | sql/catalyst/src/main/java/org/apache/spark/sql/catalyst/expressions/XXH64.java:78-108 | on a word-aligned buffer the 4-byte and byte steps do nothing, so both buffer paths agree |
| XxHash64.EmptyInput | sql/catalyst/src/main/java/org/apache/spark/sql/catalyst/expressions/XXH64.java:183-186 | the empty buffer hashes to the mix of `seed + PRIME64_5` |
| XxHash64.SingleByte | sql/catalyst/src/main/java/org/apache/spark/sql/catalyst/expressions/XXH64.java:102-107 | a one-byte buffer takes one byte step from `seed + PRIME64_5 + 1`, then the mix |
| XxHash64.EmptyVector | sql/catalyst/src/main/java/org/apache/spark/sql/catalyst/expressions/XXH64.java:88-108 | the empty buffer under seed 0 hashes to 0xEF46DB3751D8E999 |
| XxHash64.ZeroByteVector | sql/catalyst/src/main/java/org/apache/spark/sql/catalyst/expressions/XXH64.java:88-108 | the byte 0x00 under seed 0 hashes to 0xE934A84ADB052768 |
| XxHash64.IntVector | sql/catalyst/src/main/java/org/apache/spark/sql/catalyst/expressions/XXH64.java:56-61 | the 32-bit value 42 under seed 0 hashes to 0xD756D7B62FC50BF1 |
| XxHash64.LongVector | sql/catalyst/src/main/java/org/apache/spark/sql/catalyst/expressions/XXH64.java:67-72 | the 64-bit value 42 under seed 0 hashes to 0xB556806FB6D14353 |
| MemoryBlock.GetIntLittleEndian | sql/catalyst/src/main/java/org/apache/spark/sql/catalyst/expressions/XXH64.java:97 | the 32-bit read at an offset is the little-endian reading of the four bytes there |
| MemoryBlock.GetLongLittleEndian | sql/catalyst/src/main/java/org/apache/spark/sql/catalyst/expressions/XXH64.java:135 | the 64-bit read at an offset is the little-endian reading of the eight bytes there |
| MemoryBlock.GetIntOfLittleEndian32 | sql/catalyst/src/main/java/org/apache/spark/sql/catalyst/expressions/XXH64.java:97 | the 32-bit read at offset 0 of a value's little-endian encoding gives the value back, which links the 32-bit path to the buffer path |
| MemoryBlock.GetLongOfLittleEndian64 | sql/catalyst/src/main/java/org/apache/spark/sql/catalyst/expressions/XXH64.java:190 | the 64-bit read at offset 0 of a value's little-endian encoding gives the value back, which links the 64-bit path to the buffer path |
| Hasher.XXH64.constructor | sql/catalyst/src/main/java/org/apache/spark/sql/catalyst/expressions/XXH64.java:40-45 | the hasher keeps the seed it is built with; the seed is a `const` and cannot change afterwards |
| Hasher.XXH64.HashInt | sql/catalyst/src/main/java/org/apache/spark/sql/catalyst/expressions/XXH64.java:52-54 | hashes with the hasher's own seed, which equals the buffer hash of the 4 little-endian bytes |
| Hasher.XXH64.HashLong | sql/catalyst/src/main/java/org/apache/spark/sql/catalyst/expressions/XXH64.java:63-65 | hashes with the hasher's own seed, which equals the buffer hash of the 8 little-endian bytes |
| Hasher.XXH64.HashUnsafeWordsBlock | sql/catalyst/src/main/java/org/apache/spark/sql/catalyst/expressions/XXH64.java:74-76 | hashes a word-aligned buffer with the hasher's own seed, equal to the general path |

## Left out

- `MemoryBlock`, the unsafe on-heap/off-heap view, is not part of this model. A buffer is a sequence of bytes, and its reads are functions whose preconditions keep every read inside the buffer.
- The `Object`/offset overloads `hashUnsafeBytes` (lines 84-86 and 110-112) wrap raw memory in a `MemoryBlock`. They are left out with it.
- `toString` (lines 47-50) only formats text and is left out.
- The JVM `assert` on a word-aligned length (line 79) is a precondition of `HashUnsafeWordsBlock`. The `assert` on a non-negative length (line 91) holds by construction, because a length is a `nat` no larger than `Long.MAX_VALUE`.
- `HashUnsafeBytesBlock`: `length & -8` (line 94) is written as `length - length % 8`. The two are equal for a non-negative length, but the bit-mask form is not proved.
- The stripe loop is a do-while in the source (lines 134-152) and a while loop in the model. It is entered only with at least 32 bytes, so its test holds at entry and both run the same passes.
- The loops of `hashBytesByWordsBlock` and `hashUnsafeBytesBlock` are split into helper methods (`ConsumeStripes`, `ConsumeWords`, `ConsumeTail`, `ConsumeBytes`). Each loop body computes the same values as the source's: the three-statement lane update is one `Round` call, and the word update is one `WordStep` call.
- Byte order: the source reads 32- and 64-bit words through `MemoryBlock.getInt`/`getLong`, which use the host's byte order, and never swaps bytes. The model fixes little-endian reads. On a big-endian host the source's buffer results differ from the model's, and its `hashInt`/`hashLong` no longer equal the buffer hash of the value's little-endian bytes.
- The step functions write the primes as literals. The named constants `PRIME64_1` to `PRIME64_5` carry the same values, but no lemma proves the two forms equal.
- Thread safety needs no model: the hasher's only state is its immutable seed.
- The model does not cover the statistical quality of the hash (avalanche, collision rates). Only the bijectivity of the final mix is proved.
- The only known values proved are those listed under "## Model". Longer published vectors cross the stripe loop and are not evaluated.
