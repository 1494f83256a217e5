/** The free-block bitmap of kernel/fs.c, down to the bits of its bytes. */
module Bitmap {

  const BPB: nat := 8192 // bits per bitmap block, BSIZE * 8

  type BitBlock = s: seq<bv8> | |s| == 1024 witness seq(1024, _ => 0)

  type Bits = seq<BitBlock>

  /** 1 << (bi % 8) */
  function Mask(k: nat): (m: bv8)
    requires k < 8
  {
    if k == 0 then 1 else if k == 1 then 2 else if k == 2 then 4 else if k == 3 then 8
    else if k == 4 then 16 else if k == 5 then 32 else if k == 6 then 64 else 128
  }

  predicate TestBit(x: bv8, k: nat)
    requires k < 8
  {
    x & Mask(k) != 0
  }

  lemma OrMask(x: bv8, i: nat, j: nat)
    requires i < 8 && j < 8
    ensures TestBit(x | Mask(i), j) <==> i == j || TestBit(x, j)
  {
    if i == j { assert (x | Mask(i)) & Mask(i) == Mask(i); }
    else { assert (x | Mask(i)) & Mask(j) == (x & Mask(j)) | (Mask(i) & Mask(j)); assert Mask(i) & Mask(j) == 0; }
  }

  lemma AndNotMask(x: bv8, i: nat, j: nat)
    requires i < 8 && j < 8
    ensures TestBit(x & !Mask(i), j) <==> i != j && TestBit(x, j)
  {
    if i == j { assert (x & !Mask(i)) & Mask(i) == 0; }
    else { assert (x & !Mask(i)) & Mask(j) == x & (!Mask(i) & Mask(j)); assert !Mask(i) & Mask(j) == Mask(j); }
  }

  /** Whether block b is marked in use. */
  predicate Used(bm: Bits, b: nat)
    requires b < |bm| * BPB
  {
    TestBit(bm[b / BPB][b % BPB / 8], b % 8)
  }

  /** The test of bfree. */
  lemma BitIs(bm: Bits, b: nat)
    requires b < |bm| * BPB
    ensures b / BPB < |bm| && b % BPB / 8 < 1024
    ensures Used(bm, b) <==> bm[b / BPB][b % BPB / 8] & Mask(b % 8) != 0
  {
    hide Mask;
  }

  /** bp->data[bi/8] |= m, on the bitmap block of b. */
  function Mark(bm: Bits, b: nat): (r: Bits)
    requires b < |bm| * BPB
    ensures |r| == |bm|
  {
    bm[b / BPB := bm[b / BPB][b % BPB / 8 := bm[b / BPB][b % BPB / 8] | Mask(b % 8)]]
  }

  /** bp->data[bi/8] &= ~m, on the bitmap block of b. */
  function Clear(bm: Bits, b: nat): (r: Bits)
    requires b < |bm| * BPB
    ensures |r| == |bm|
  {
    bm[b / BPB := bm[b / BPB][b % BPB / 8 := bm[b / BPB][b % BPB / 8] & !Mask(b % 8)]]
  }

  /** A block number from its bitmap block, byte and bit. */
  lemma SplitPlace(b: nat)
    ensures b == 8192 * (b / 8192) + 8 * (b % 8192 / 8) + b % 8
  {
    var q, r := b / 8192, b % 8192;
    assert b == 8192 * q + r;
    assert r == 8 * (r / 8) + r % 8;
    BitOf(b, q, r);
  }

  lemma SamePlace(b: nat, c: nat)
    requires b / BPB == c / BPB && b % BPB / 8 == c % BPB / 8 && b % 8 == c % 8
    ensures b == c
  {
    SplitPlace(b);
    SplitPlace(c);
  }

  lemma MarkIs(bm: Bits, b: nat, q: nat, j: nat)
    requires b < |bm| * BPB && q < |bm| && j < 1024
    ensures Mark(bm, b)[q][j] == if q == b / BPB && j == b % BPB / 8 then bm[q][j] | Mask(b % 8) else bm[q][j]
  {
    hide Mask;
  }

  lemma ClearIs(bm: Bits, b: nat, q: nat, j: nat)
    requires b < |bm| * BPB && q < |bm| && j < 1024
    ensures Clear(bm, b)[q][j] == if q == b / BPB && j == b % BPB / 8 then bm[q][j] & !Mask(b % 8) else bm[q][j]
  {
    hide Mask;
  }

  /** Marking a block changes that block's bit and no other. */
  lemma MarkBits(bm: Bits, b: nat, c: nat)
    requires b < |bm| * BPB && c < |bm| * BPB
    ensures Used(Mark(bm, b), c) <==> b == c || Used(bm, c)
  {
    hide Mask, TestBit, Mark;
    var q, j := c / BPB, c % BPB / 8;
    MarkIs(bm, b, q, j);
    if q == b / BPB && j == b % BPB / 8 {
      OrMask(bm[q][j], b % 8, c % 8);
      if b % 8 == c % 8 { SamePlace(b, c); }
    }
  }

  /** Clearing a block changes that block's bit and no other. */
  lemma ClearBits(bm: Bits, b: nat, c: nat)
    requires b < |bm| * BPB && c < |bm| * BPB
    ensures Used(Clear(bm, b), c) <==> b != c && Used(bm, c)
  {
    hide Mask, TestBit, Clear;
    var q, j := c / BPB, c % BPB / 8;
    ClearIs(bm, b, q, j);
    if q == b / BPB && j == b % BPB / 8 {
      AndNotMask(bm[q][j], b % 8, c % 8);
      if b % 8 == c % 8 { SamePlace(b, c); }
    }
  }

  lemma PlaceOf(b: nat, q: nat, bi: nat)
    requires bi < 8192 && b == 8192 * q + bi
    ensures b / 8192 == q && b % 8192 == bi
  {
  }

  lemma BitOf(b: nat, q: nat, bi: nat)
    requires bi < 8192 && b == 8192 * q + bi
    ensures b % 8 == bi % 8
  {
    var m := 1024 * q + bi / 8;
    assert bi == 8 * (bi / 8) + bi % 8;
    assert b == 8 * m + bi % 8;
    Mod8(m, bi % 8);
  }

  lemma Mod8(m: nat, r: nat)
    requires r < 8
    ensures (8 * m + r) % 8 == r
  {
  }

  /** Bit bi of bitmap block q is that of block q * BPB + bi. */
  lemma UsedAt(bm: Bits, q: nat, bi: nat)
    requires q < |bm| && bi < BPB
    ensures q * BPB + bi < |bm| * BPB && (Used(bm, q * BPB + bi) <==> bm[q][bi / 8] & Mask(bi % 8) != 0)
  {
    hide Mask;
    PlaceOf(q * BPB + bi, q, bi);
    BitOf(q * BPB + bi, q, bi);
  }

  /** The inner loop of balloc: the first clear bit of bitmap block q, up to sb.size. */
  method ScanBlock(bm: Bits, q: nat, size: nat) returns (found: bool, r: nat)
    requires q < |bm| && q * BPB <= size <= |bm| * BPB
    ensures found ==> q * BPB <= r < size && !Used(bm, r) && forall c: nat :: q * BPB <= c < r ==> Used(bm, c)
    ensures !found ==> forall c: nat :: q * BPB <= c < size && c < (q + 1) * BPB ==> Used(bm, c)
  {
    hide Used, Mask;
    var b := q * BPB;
    var bi := 0;
    while bi < BPB && b + bi < size
      invariant bi <= BPB && b + bi <= size
      invariant forall c: nat :: b <= c < b + bi ==> Used(bm, c)
    {
      UsedAt(bm, q, bi);
      if bm[q][bi / 8] & Mask(bi % 8) == 0 { return true, b + bi; }
      bi := bi + 1;
    }
    return false, 0;
  }

  /** The scan of balloc: bitmap blocks in order, bits in order, up to sb.size. */
  method FindFree(bm: Bits, size: nat) returns (found: bool, r: nat)
    requires size <= |bm| * BPB
    ensures found ==> r < size && !Used(bm, r) && forall c: nat :: c < r ==> Used(bm, c)
    ensures !found ==> forall c: nat :: c < size ==> Used(bm, c)
  {
    hide Used;
    var b, q := 0, 0;
    while b < size
      invariant b == q * BPB
      invariant forall c: nat :: c < b && c < size ==> Used(bm, c)
      decreases size - b
    {
      found, r := ScanBlock(bm, q, size);
      if found { return; }
      b, q := b + BPB, q + 1;
    }
    return false, 0;
  }

  lemma NoneUsed(nblocks: nat, c: nat)
    requires c < nblocks * BPB
    ensures !Used(seq(nblocks, _ => seq(1024, _ => 0)), c)
  {
  }

  /** mkfs's balloc: a bitmap whose first `used` bits are set. */
  method PrefixBits(nblocks: nat, used: nat) returns (bm: Bits)
    requires used <= nblocks * BPB
    ensures |bm| == nblocks && forall c: nat :: c < nblocks * BPB ==> (Used(bm, c) <==> c < used)
  {
    bm := seq(nblocks, _ => seq(1024, _ => 0));
    forall c: nat | c < nblocks * BPB ensures !Used(bm, c) { NoneUsed(nblocks, c); }
    hide Used, Mark;
    var i := 0;
    while i < used
      invariant i <= used && |bm| == nblocks
      invariant forall c: nat :: c < nblocks * BPB ==> (Used(bm, c) <==> c < i)
    {
      forall c: nat | c < nblocks * BPB ensures Used(Mark(bm, i), c) <==> i == c || Used(bm, c) { MarkBits(bm, i, c); }
      bm := Mark(bm, i);
      i := i + 1;
    }
  }
}
