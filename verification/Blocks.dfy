/** Disk blocks as byte sequences, and the 32-bit words the kernel reads out of them. */
module Blocks {

  const BSIZE: nat := 1024
  const NWORDS: nat := 256 // BSIZE / sizeof(uint)
  const WORD_LIMIT: nat := 0x1_0000_0000

  type Byte = x: int | 0 <= x < 256

  type Bytes = s: seq<Byte> | |s| == BSIZE witness seq(BSIZE, _ => 0)

  datatype Block = Block(bytes: Bytes)

  function ZeroBlock(): (b: Block)
    ensures forall i :: 0 <= i < BSIZE ==> b.bytes[i] == 0
  {
    Block(seq(BSIZE, _ => 0))
  }

  /** Little-endian word j of a block: ((uint*)data)[j]. */
  function Word(b: Block, j: nat): (w: nat)
    requires j < NWORDS
    ensures w < WORD_LIMIT
  {
    var s := b.bytes;
    s[4 * j] as int + 256 * (s[4 * j + 1] as int) + 65536 * (s[4 * j + 2] as int) + 16777216 * (s[4 * j + 3] as int)
  }

  /** Store word j: ((uint*)data)[j] = w. */
  function SetWord(b: Block, j: nat, w: nat): (r: Block)
    requires j < NWORDS && w < WORD_LIMIT
  {
    Block(b.bytes[4 * j := w % 256][4 * j + 1 := w / 256 % 256]
          [4 * j + 2 := w / 65536 % 256][4 * j + 3 := w / 16777216])
  }

  lemma WordDigits(w: nat)
    requires w < WORD_LIMIT
    ensures w % 256 + 256 * (w / 256 % 256) + 65536 * (w / 65536 % 256) + 16777216 * (w / 16777216) == w
  {
    assert w / 65536 == w / 256 / 256;
    assert w / 16777216 == w / 65536 / 256;
  }

  /** Storing a word is read back, and no other word of the block changes. */
  lemma WordOfSetWord(b: Block, j: nat, w: nat, i: nat)
    requires j < NWORDS && i < NWORDS && w < WORD_LIMIT
    ensures Word(SetWord(b, j, w), i) == if i == j then w else Word(b, i)
  {
    WordDigits(w);
  }

  lemma WordOfZeroBlock(j: nat)
    requires j < NWORDS
    ensures Word(ZeroBlock(), j) == 0
  {
  }
}
