/**
 * The `XXH64` object: a hasher holding a fixed seed, whose instance operations
 * hash with that seed.
 */
module Hasher {
  import opened MemoryBlock
  import XxHash64

  class XXH64 {
    /** The seed, fixed when the hasher is built. */
    const seed: bv64

    constructor(seed: bv64)
      ensures this.seed == seed
    {
      this.seed := seed;
    }

    /** Hashes a 32-bit value with this hasher's seed: its 4 little-endian bytes. */
    function HashInt(input: bv32): (r: bv64)
      ensures r == XxHash64.HashBytes(LittleEndian32(input), seed)
    {
      XxHash64.HashInt(input, seed)
    }

    /** Hashes a 64-bit value with this hasher's seed: its 8 little-endian bytes. */
    function HashLong(input: bv64): (r: bv64)
      ensures r == XxHash64.HashBytes(LittleEndian64(input), seed)
    {
      XxHash64.HashLong(input, seed)
    }

    /** Hashes a word-aligned buffer with this hasher's seed. */
    method HashUnsafeWordsBlock(mb: Block) returns (hash: bv64)
      requires |mb| % 8 == 0
      ensures hash == XxHash64.HashBytes(mb, seed)
    {
      hash := XxHash64.HashUnsafeWordsBlock(mb, seed);
    }
  }
}
