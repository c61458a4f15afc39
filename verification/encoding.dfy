/** Byte-level encodings shared by both engines: the little-endian form of a
    32-bit word (used by `from_seed` and `fill_bytes`), the high-then-low
    composition of a 64-bit draw, and the chunking of a byte buffer. */
module Encoding {

  /** `u32::to_le_bytes`: least significant byte first. */
  function LeBytes(w: bv32): (b: seq<bv8>)
    ensures |b| == 4
  {
    [(w & 0xFF) as bv8, ((w >> 8) & 0xFF) as bv8, ((w >> 16) & 0xFF) as bv8, (w >> 24) as bv8]
  }

  /** `u32::from_le_bytes`. */
  function LeWord(b: seq<bv8>): bv32
    requires |b| == 4
  {
    (b[0] as bv32) | ((b[1] as bv32) << 8) | ((b[2] as bv32) << 16) | ((b[3] as bv32) << 24)
  }

  /** Decoding the encoding of a word gives the word back. */
  lemma LeWordOfLeBytes(w: bv32)
    ensures LeWord(LeBytes(w)) == w
  {
  }

  /** Encoding the decoding of four bytes gives the bytes back. */
  lemma LeBytesOfLeWord(b: seq<bv8>)
    requires |b| == 4
    ensures LeBytes(LeWord(b)) == b
  {
  }

  /** The 64-bit draw made of two 32-bit draws: the first widened and moved
      into the high half, the second in the low half; each is recoverable. */
  function Join(hi: bv32, lo: bv32): (r: bv64)
    ensures (r >> 32) as bv32 == hi
    ensures (r & 0xFFFF_FFFF) as bv32 == lo
  {
    ((hi as bv64) << 32) | (lo as bv64)
  }

  /** ceil(n / 4): the number of 4-byte chunks `chunks_mut(4)` cuts n bytes into. */
  function Ceil4(n: nat): (c: nat)
    ensures 4 * c >= n && 4 * c < n + 4
  {
    (n + 3) / 4
  }

  /** A buffer of n bytes with 4c - 4 < n <= 4c is cut into exactly c chunks. */
  lemma Ceil4Exact(n: nat, c: nat)
    requires 4 * c - 4 < n <= 4 * c
    ensures Ceil4(n) == c
  {
  }

  /** Taking past the end of a into b keeps all of a. */
  lemma TakeAppend<T>(a: seq<T>, b: seq<T>, len: nat)
    requires len <= |b|
    ensures (a + b)[..|a| + len] == a + b[..len]
  {
  }

  /** Copying the first len bytes of a draw's encoding into the chunk
      dest[i..i + len]: they follow the untouched prefix dest[..i], and the
      bytes after the chunk are untouched too. */
  method CopyChunk(dest: array<bv8>, i: nat, bytes: seq<bv8>, len: nat)
    requires i + len <= dest.Length && len <= |bytes|
    modifies dest
    ensures dest[..i + len] == old(dest[..i]) + bytes[..len]
    ensures dest[i + len..] == old(dest[i + len..])
  {
    forall j | 0 <= j < len {
      dest[i + j] := bytes[j];
    }
  }
}
