/**
 * The read-only byte buffer the hash consumes, with the little-endian readers
 * the hash uses for 4- and 8-byte reads.
 *
 * A buffer is a sequence of bytes whose length fits in a non-negative Java
 * `long`, since the buffer's size is reported as one. The model fixes
 * multi-byte reads as little-endian; the hasher's buffer reads follow the
 * host's byte order, so this is the little-endian host's behaviour.
 */
module MemoryBlock {

  /** The largest size a buffer can report (`Long.MAX_VALUE`). */
  const MaxSize: nat := 0x7FFF_FFFF_FFFF_FFFF

  type Block = s: seq<bv8> | |s| <= MaxSize

  /** A size as the bit pattern of a Java `long`. */
  function AsLong(n: nat): bv64
    requires n <= MaxSize
  {
    n as bv64
  }

  /** The byte at offset `o`. */
  function GetByte(mb: Block, o: nat): bv8
    requires o < |mb|
  {
    mb[o]
  }

  /** Four bytes, least significant first. */
  function LittleEndian32(v: bv32): (bytes: Block)
    ensures |bytes| == 4
  {
    [(v & 0xFF) as bv8, ((v >> 8) & 0xFF) as bv8, ((v >> 16) & 0xFF) as bv8, ((v >> 24) & 0xFF) as bv8]
  }

  /** Eight bytes, least significant first. */
  function LittleEndian64(v: bv64): (bytes: Block)
    ensures |bytes| == 8
  {
    [(v & 0xFF) as bv8, ((v >> 8) & 0xFF) as bv8, ((v >> 16) & 0xFF) as bv8, ((v >> 24) & 0xFF) as bv8,
     ((v >> 32) & 0xFF) as bv8, ((v >> 40) & 0xFF) as bv8, ((v >> 48) & 0xFF) as bv8, ((v >> 56) & 0xFF) as bv8]
  }

  /** The little-endian 32-bit word at offset `o`; the read must lie inside the buffer. */
  function GetInt(mb: Block, o: nat): bv32
    requires o + 4 <= |mb|
  {
    (mb[o] as bv32) | ((mb[o + 1] as bv32) << 8) | ((mb[o + 2] as bv32) << 16) | ((mb[o + 3] as bv32) << 24)
  }

  /** The little-endian 64-bit word at offset `o`; the read must lie inside the buffer. */
  function GetLong(mb: Block, o: nat): bv64
    requires o + 8 <= |mb|
  {
    (mb[o] as bv64) | ((mb[o + 1] as bv64) << 8) | ((mb[o + 2] as bv64) << 16) | ((mb[o + 3] as bv64) << 24)
    | ((mb[o + 4] as bv64) << 32) | ((mb[o + 5] as bv64) << 40) | ((mb[o + 6] as bv64) << 48)
    | ((mb[o + 7] as bv64) << 56)
  }

  /** The 32-bit word read at `o` encodes back to the four bytes it was read from. */
  lemma GetIntLittleEndian(mb: Block, o: nat)
    requires o + 4 <= |mb|
    ensures LittleEndian32(GetInt(mb, o)) == mb[o..o + 4]
  {
  }

  /** The 64-bit word read at `o` encodes back to the eight bytes it was read from. */
  lemma GetLongLittleEndian(mb: Block, o: nat)
    requires o + 8 <= |mb|
    ensures LittleEndian64(GetLong(mb, o)) == mb[o..o + 8]
  {
  }

  /** Reading back an encoded 32-bit value gives the value. */
  lemma GetIntOfLittleEndian32(v: bv32)
    ensures GetInt(LittleEndian32(v), 0) == v
  {
  }

  /** Reading back an encoded 64-bit value gives the value. */
  lemma GetLongOfLittleEndian64(v: bv64)
    ensures GetLong(LittleEndian64(v), 0) == v
  {
  }
}
