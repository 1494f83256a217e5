/** balloc, bfree, bmap, itrunc, readi and writei of kernel/fs.c, and filewrite of kernel/file.c,
    on one device. Buffers are the plain block map that CacheModel.CacheIsPlainMap shows the cache to be;
    `logged` is the set of block numbers passed to log_write since begin_op. */
module FileSystem {
  import opened Blocks
  import opened Bitmap
  import opened InodeSpec
  import opened LogSpec

  const IPB: nat := 16 // inodes per block, BSIZE / sizeof(struct dinode)

  /** What a transaction can change on the disk, and the blocks it has logged so far. */
  datatype Image = Image(data: Store, bitmap: Bits, dinodes: map<nat, Inode>, logged: set<nat>)

  /** Log accounting of one writei: data blocks, bitmap blocks, rounds, and new data blocks. */
  datatype Book = Book(D: set<nat>, B: set<nat>, t: nat, added: nat)

  /** One transaction: the disk at begin_op and at end_op. */
  datatype Txn = Txn(before: Image, after: Image)

  class Fs {
    const lo: nat            // first data block
    const hi: nat            // sb.size
    const bmapstart: nat
    const inodestart: nat
    var bitmap: Bits
    var data: Store
    var inodes: map<nat, Inode>    // in-memory inodes
    var dinodes: map<nat, Inode>   // on-disk inodes
    var logged: set<nat>
    ghost var owner: map<nat, Loc>

    ghost function F(): (f: Files)
      reads this
    {
      Files(data, inodes, owner)
    }

    /** Block ownership: the bitmap marks exactly the metadata and the blocks the inodes reach. */
    ghost predicate Base()
      reads this
    {
      hi <= |bitmap| * BPB && InodesOk(F()) && SlotsOk(F(), lo, hi) && BitmapOk(bitmap, owner, lo, hi)
    }

    /** And no file has holes, and the inodes in memory are those on the disk. */
    ghost predicate Valid()
      reads this
    {
      Base() && FilesOk(F()) && dinodes == inodes
    }

    /** A file system as mkfs leaves it, before anything is written: metadata marked, files empty. */
    constructor (lo: nat, hi: nat, bmapstart: nat, inodestart: nat, inums: set<nat>)
      requires 0 < lo <= hi <= WORD_LIMIT
      ensures Valid() && inodes.Keys == inums && logged == {} && dinodes == inodes
      ensures forall i :: i in inums ==> inodes[i].size == 0
    {
      var bits := PrefixBits(hi / BPB + 1, lo);
      this.lo, this.hi, this.bmapstart, this.inodestart := lo, hi, bmapstart, inodestart;
      bitmap, data, logged, owner := bits, map[], {}, map[];
      inodes := map i | i in inums :: Inode(0, seq(NDIRECT + 1, _ => 0));
      dinodes := map i | i in inums :: Inode(0, seq(NDIRECT + 1, _ => 0));
    }

    ghost function Img(): (m: Image)
      reads this`data, this`bitmap, this`dinodes, this`logged
    {
      Image(data, bitmap, dinodes, logged)
    }

    /** From a to b, every data, bitmap and inode block that changed has been logged. */
    ghost predicate Journaled(a: Image, b: Image) {
      && a.logged <= b.logged && |b.bitmap| == |a.bitmap|
      && (forall x {:trigger b.data[x]} :: x in b.data && (x !in a.data || b.data[x] != a.data[x]) ==> x in b.logged)
      && (forall q {:trigger b.bitmap[q]} :: 0 <= q < |b.bitmap| && b.bitmap[q] != a.bitmap[q] ==>
            q + bmapstart in b.logged)
      && (forall i {:trigger b.dinodes[i]} ::
            i in b.dinodes && (i !in a.dinodes || b.dinodes[i] != a.dinodes[i]) ==> InodeBlock(i) in b.logged)
    }

    lemma JournaledTwice(a: Image, b: Image, c: Image)
      requires Journaled(a, b) && Journaled(b, c)
      ensures Journaled(a, c)
    {
    }

    ghost predicate Full()
      reads this
      requires hi <= |bitmap| * BPB
    {
      forall b: nat :: b < hi ==> Used(bitmap, b)
    }

    function BitmapBlock(b: nat): (r: nat) { b / BPB + bmapstart }

    function InodeBlock(i: nat): (r: nat) { i / IPB + inodestart }

    lemma JournalBits(a: Image, b: Image, x: nat)
      requires x < |a.bitmap| * BPB && (b.bitmap == Mark(a.bitmap, x) || b.bitmap == Clear(a.bitmap, x))
      requires b == a.(bitmap := b.bitmap, logged := a.logged + {BitmapBlock(x)})
      ensures Journaled(a, b)
    {
      hide Mask;
    }

    lemma JournalData(a: Image, b: Image, x: nat)
      requires x in b.data && b == a.(data := a.data[x := b.data[x]], logged := a.logged + {x})
      ensures Journaled(a, b)
    {
    }

    lemma JournalNone(a: Image)
      ensures Journaled(a, a)
    {
    }

    /** balloc: the lowest free block, marked and zeroed, or 0 when there is none. */
    method Balloc() returns (a: nat)
      requires hi <= |bitmap| * BPB && (hi > 0 ==> Used(bitmap, 0))
      modifies this`bitmap, this`data, this`logged
      ensures a == 0 <==> old(Full())
      ensures a == 0 ==> bitmap == old(bitmap) && data == old(data) && logged == old(logged)
      ensures a != 0 ==> a < hi && !Used(old(bitmap), a) && forall b: nat :: b < a ==> Used(old(bitmap), b)
      ensures a != 0 ==> bitmap == Mark(old(bitmap), a) && data == old(data)[a := ZeroBlock()]
      ensures a != 0 ==> logged == old(logged) + {BitmapBlock(a), a}
      ensures Journaled(old(Img()), Img())
    {
      hide Used, Mark, Journaled;
      ghost var m := Img();
      JournalNone(m);
      var found, r := FindFree(bitmap, hi);
      if found {
        bitmap := Mark(bitmap, r);
        logged := logged + {BitmapBlock(r)};
        JournalBits(m, Img(), r);
        ghost var n := Img();
        data := data[r := ZeroBlock()];
        logged := logged + {r};
        JournalData(n, Img(), r);
        JournaledTwice(m, n, Img());
        return r;
      }
      return 0;
    }

    /** bfree; false where it panics with "freeing free block". */
    method Bfree(b: nat) returns (ok: bool)
      requires b < hi <= |bitmap| * BPB
      modifies this`bitmap, this`logged
      ensures ok <==> Used(old(bitmap), b)
      ensures ok ==> bitmap == Clear(old(bitmap), b) && logged == old(logged) + {BitmapBlock(b)}
      ensures !ok ==> bitmap == old(bitmap) && logged == old(logged)
      ensures Journaled(old(Img()), Img())
    {
      hide Used, Clear, Mask, Journaled;
      ghost var m := Img();
      JournalNone(m);
      BitIs(bitmap, b);
      if bitmap[b / BPB][b % BPB / 8] & Mask(b % 8) == 0 { return false; }
      bitmap := Clear(bitmap, b);
      logged := logged + {BitmapBlock(b)};
      JournalBits(m, Img(), b);
      ok := true;
    }

    /** Block 0 is never free, and a free block may be given to any empty place. */
    lemma FreeBlock(bm: Bits, f: Files, i: nat, p: nat, a: nat)
      requires SlotsOk(f, lo, hi) && BitmapOk(bm, f.owner, lo, hi) && i in f.inodes && p < NSLOTS && At(f, i, p) == 0
      requires p > NDIRECT ==> At(f, i, NDIRECT) != 0
      ensures hi > 0 ==> Used(bm, 0)
      ensures a < hi && !Used(bm, a) ==> CanAllocate(f, lo, hi, i, p, a) && a < WORD_LIMIT
      ensures p > NDIRECT ==> f.inodes[i].addrs[NDIRECT] == At(f, i, NDIRECT) && At(f, i, NDIRECT) in f.data
    {
      hide Used;
    }

    lemma AllocatedIs(f: Files, i: nat, p: nat, a: nat)
      requires InodesOk(f) && i in f.inodes && p < NSLOTS && a < WORD_LIMIT
               && (p > NDIRECT ==> f.inodes[i].addrs[NDIRECT] in f.data)
      ensures p <= NDIRECT ==>
                Allocated(f, i, p, a) == Files(f.data[a := ZeroBlock()],
                                               f.inodes[i := Inode(f.inodes[i].size, f.inodes[i].addrs[p := a])],
                                               f.owner[a := Loc(i, p)])
      ensures p > NDIRECT ==>
                var ind, d := f.inodes[i].addrs[NDIRECT], f.data[a := ZeroBlock()];
                Allocated(f, i, p, a) == Files(d[ind := SetWord(d[ind], p - NDIRECT - 1, a)], f.inodes,
                                               f.owner[a := Loc(i, p)])
    {
      hide SetWord;
    }

    /** a[bn] = addr and log_write, on the indirect block. */
    method StoreWord(ind: nat, j: nat, a: nat)
      requires ind in data && j < NINDIRECT && a < WORD_LIMIT
      modifies this`data, this`logged
      ensures data == old(data)[ind := SetWord(old(data)[ind], j, a)] && logged == old(logged) + {ind}
      ensures Journaled(old(Img()), Img())
    {
      hide SetWord, Journaled;
      data := data[ind := SetWord(data[ind], j, a)];
      logged := logged + {ind};
      JournalData(old(Img()), Img(), ind);
    }

    /** balloc for place p of inode i, followed by the store that makes the block reachable. */
    method Extend(i: nat, p: nat) returns (a: nat)
      requires Base() && i in inodes && p < NSLOTS && At(F(), i, p) == 0
      requires p > NDIRECT ==> At(F(), i, NDIRECT) != 0
      modifies this`bitmap, this`data, this`inodes, this`logged, this`owner
      ensures Base() && inodes.Keys == old(inodes.Keys)
      ensures a == 0 ==> F() == old(F()) && bitmap == old(bitmap) && logged == old(logged) && Full()
      ensures a != 0 ==> CanAllocate(old(F()), lo, hi, i, p, a) && F() == Allocated(old(F()), i, p, a)
      ensures a != 0 ==>
                logged == old(logged) + {BitmapBlock(a), a} + if p > NDIRECT then {old(At(F(), i, NDIRECT))} else {}
      ensures Journaled(old(Img()), Img())
    {
      hide SlotsOk, BitmapOk, Used, CanAllocate, Word, SetWord, At, Allocated, Journaled, Mark;
      ghost var f, bm, m := F(), bitmap, Img();
      FreeBlock(bm, f, i, p, 0);
      a := Balloc();
      if a != 0 {
        FreeBlock(bm, f, i, p, a);
        AllocatedIs(f, i, p, a);
        if p <= NDIRECT {
          inodes := inodes[i := Inode(inodes[i].size, inodes[i].addrs[p := a])];
        } else {
          var ind := inodes[i].addrs[NDIRECT];
          StoreWord(ind, p - NDIRECT - 1, a);
          JournaledTwice(m, Image(f.data[a := ZeroBlock()], bitmap, dinodes, m.logged + {BitmapBlock(a), a}), Img());
        }
        owner := owner[a := Loc(i, p)];
        AllocatedOk(f, lo, hi, i, p, a);
        MarkedOk(bm, f, lo, hi, i, p, a);
      }
    }

    /** bmap: the block of file block bn, allocating it and its indirect block if needed; 0 when
        out of blocks. `bits` are the bitmap blocks logged on the way. */
    method Bmap(i: nat, bn: nat) returns (a: nat, ghost bits: set<nat>)
      requires Base() && i in inodes && bn < MAXFILE
      modifies this`bitmap, this`data, this`inodes, this`logged, this`owner
      ensures Base() && Grown(old(F()), lo, hi, i, Place(bn), a, F())
      ensures a == 0 ==> Full()
      ensures old(At(F(), i, Place(bn))) != 0 ==> bitmap == old(bitmap) && logged == old(logged) && bits == {}
      ensures i in inodes && logged <= old(logged) + bits + ({a, At(F(), i, NDIRECT)} - {0})
      ensures |bits| <= (if old(At(F(), i, Place(bn))) == 0 && a != 0 then 1 else 0)
                        + (if old(At(F(), i, NDIRECT)) == 0 && At(F(), i, NDIRECT) != 0 then 1 else 0)
      ensures Journaled(old(Img()), Img())
    {
      hide SlotsOk, BitmapOk, At, Grown, Used, Journaled;
      if bn < NDIRECT {
        a, bits := MapDirect(i, bn);
      } else {
        a, bits := MapIndirect(i, bn);
      }
    }

    method MapDirect(i: nat, bn: nat) returns (a: nat, ghost bits: set<nat>)
      requires Base() && i in inodes && bn < NDIRECT
      modifies this`bitmap, this`data, this`inodes, this`logged, this`owner
      ensures Base() && Grown(old(F()), lo, hi, i, bn, a, F())
      ensures a == 0 ==> Full()
      ensures old(At(F(), i, bn)) != 0 ==> bitmap == old(bitmap) && logged == old(logged) && bits == {}
      ensures i in inodes && logged <= old(logged) + bits + ({a} - {0})
      ensures |bits| <= if old(At(F(), i, bn)) == 0 && a != 0 then 1 else 0
      ensures Journaled(old(Img()), Img())
    {
      hide SlotsOk, BitmapOk, Used, CanAllocate, Allocated, Journaled;
      bits := {};
      JournalNone(Img());
      ghost var f := F();
      a := inodes[i].addrs[bn];
      assert a == At(f, i, bn);
      if a == 0 {
        a := Extend(i, bn);
        if a != 0 { bits := {BitmapBlock(a)}; }
      }
    }

    method MapIndirect(i: nat, bn: nat) returns (a: nat, ghost bits: set<nat>)
      requires Base() && i in inodes && NDIRECT <= bn < MAXFILE
      modifies this`bitmap, this`data, this`inodes, this`logged, this`owner
      ensures Base() && Grown(old(F()), lo, hi, i, bn + 1, a, F())
      ensures a == 0 ==> Full()
      ensures old(At(F(), i, bn + 1)) != 0 ==> bitmap == old(bitmap) && logged == old(logged) && bits == {}
      ensures i in inodes && logged <= old(logged) + bits + ({a, At(F(), i, NDIRECT)} - {0})
      ensures |bits| <= (if old(At(F(), i, bn + 1)) == 0 && a != 0 then 1 else 0)
                        + (if old(At(F(), i, NDIRECT)) == 0 && At(F(), i, NDIRECT) != 0 then 1 else 0)
      ensures Journaled(old(Img()), Img())
    {
      hide SlotsOk, BitmapOk, At, Allocated, CanAllocate, GrownBoth, Grown, Used, Journaled;
      ghost var f := F();
      var ind;
      ind, bits := LoadIndirect(i);
      if ind == 0 { NoIndirect(f, lo, hi, i, bn + 1); return 0, bits; }
      ghost var h, b, m := F(), bits, Img();
      a, bits := LoadEntry(i, bn, ind);
      JournaledTwice(old(Img()), m, Img());
      bits := b + bits;
      GrownInTwoStages(f, lo, hi, i, bn + 1, ind, h, a, F());
      HasIndirect(f, lo, hi, i, bn + 1);
    }

    /** The indirect block, allocated if necessary. */
    method LoadIndirect(i: nat) returns (ind: nat, ghost bits: set<nat>)
      requires Base() && i in inodes
      modifies this`bitmap, this`data, this`inodes, this`logged, this`owner
      ensures Base() && i in inodes && At(F(), i, NDIRECT) == ind
      ensures old(At(F(), i, NDIRECT)) != 0 ==> F() == old(F()) && bitmap == old(bitmap) && logged == old(logged)
                                                && bits == {}
      ensures ind == 0 ==> F() == old(F()) && logged == old(logged) && bits == {} && Full()
      ensures F() != old(F()) ==>
                CanAllocate(old(F()), lo, hi, i, NDIRECT, ind) && F() == Allocated(old(F()), i, NDIRECT, ind)
                && bits == {BitmapBlock(ind)} && logged == old(logged) + bits + {ind}
      ensures Journaled(old(Img()), Img())
    {
      hide SlotsOk, BitmapOk, Used, CanAllocate, Allocated, Journaled;
      bits := {};
      JournalNone(Img());
      ghost var f := F();
      ind := inodes[i].addrs[NDIRECT];
      assert ind == At(f, i, NDIRECT);
      if ind == 0 {
        ind := Extend(i, NDIRECT);
        if ind != 0 {
          bits := {BitmapBlock(ind)};
          AllocatedAt(f, lo, hi, i, NDIRECT, ind, i, NDIRECT);
        }
      }
    }

    /** The entry of the indirect block, allocated if necessary. */
    method LoadEntry(i: nat, bn: nat, ind: nat) returns (a: nat, ghost bits: set<nat>)
      requires Base() && i in inodes && NDIRECT <= bn < MAXFILE && At(F(), i, NDIRECT) == ind != 0
      modifies this`bitmap, this`data, this`inodes, this`logged, this`owner
      ensures Base()
      ensures old(At(F(), i, bn + 1)) != 0 ==> a == old(At(F(), i, bn + 1))
      ensures a == 0 ==> Full()
      ensures a == old(At(F(), i, bn + 1)) ==> F() == old(F()) && bitmap == old(bitmap) && logged == old(logged)
                                               && bits == {}
      ensures a != old(At(F(), i, bn + 1)) ==>
                CanAllocate(old(F()), lo, hi, i, bn + 1, a) && F() == Allocated(old(F()), i, bn + 1, a)
                && bits == {BitmapBlock(a)} && logged == old(logged) + bits + {a, ind}
      ensures Journaled(old(Img()), Img())
    {
      hide SlotsOk, BitmapOk, Used, CanAllocate, Allocated, Journaled, Word, SetWord;
      bits := {};
      JournalNone(Img());
      ghost var f := F();
      HasData(f, lo, hi, i, NDIRECT);
      a := Word(data[ind], bn - NDIRECT);
      assert a == At(f, i, bn + 1);
      if a == 0 {
        a := Extend(i, bn + 1);
        if a != 0 { bits := {BitmapBlock(a)}; }
      }
    }
  
    /** iupdate: copy an in-memory inode to the disk. */
    method Iupdate(i: nat)
      requires i in inodes
      modifies this`dinodes, this`logged
      ensures dinodes == old(dinodes)[i := inodes[i]] && logged == old(logged) + {InodeBlock(i)}
      ensures Journaled(old(Img()), Img())
    {
      dinodes := dinodes[i := inodes[i]];
      logged := logged + {InodeBlock(i)};
    }

    /** The places of inode i that have a block keep one; sizes and the other inodes are untouched. */
    ghost predicate OnlyGrows(f: Files, g: Files, i: nat)
    {
      && InodesOk(f) && InodesOk(g) && i in f.inodes && g.inodes.Keys == f.inodes.Keys
      && g.inodes[i].size == f.inodes[i].size
      && (forall j :: j in f.inodes && j != i ==> g.inodes[j] == f.inodes[j])
      && (forall j, p :: j in f.inodes && j != i && 0 <= p < NSLOTS ==> At(g, j, p) == At(f, j, p))
      && (forall p :: 0 <= p < NSLOTS && At(f, i, p) != 0 ==> At(g, i, p) == At(f, i, p))
    }

    /** All bytes of all files are the same, except that i has s from byte off on. */
    ghost predicate BytesAre(f: Files, g: Files, i: nat, off: nat, s: seq<Byte>)
    {
      && InodesOk(f) && InodesOk(g) && g.inodes.Keys == f.inodes.Keys
      && forall j, k :: j in f.inodes && 0 <= k < MAXBYTES ==>
           ByteAt(g, j, k) == if j == i && off <= k < off + |s| then s[k - off] else ByteAt(f, j, k)
    }

    lemma SameInode(f: Files, g: Files, i: nat, p: nat, j: nat)
      requires InodesOk(f) && InodesOk(g) && PlacesKept(f, g, i, p) && j in f.inodes && j != i
      ensures j in g.inodes && g.inodes[j] == f.inodes[j]
    {
      forall q | 0 <= q <= NDIRECT ensures g.inodes[j].addrs[q] == f.inodes[j].addrs[q] {
        assert At(g, j, q) == At(f, j, q);
      }
      assert g.inodes[j].addrs == f.inodes[j].addrs;
    }

    lemma SlotsInodes(f: Files)
      requires SlotsOk(f, lo, hi)
      ensures InodesOk(f)
    {
    }

    lemma GrownBytesAre(f: Files, i: nat, p: nat, a: nat, g: Files)
      requires SlotsOk(f, lo, hi) && i in f.inodes && p < NSLOTS && p != NDIRECT && Grown(f, lo, hi, i, p, a, g)
      requires InodesOk(g) && g.inodes.Keys == f.inodes.Keys
      ensures BytesAre(f, g, i, 0, [])
    {
      hide Grown, SlotsOk, At, ByteAt;
      SlotsInodes(f);
      forall j, k | j in f.inodes && 0 <= k < MAXBYTES ensures ByteAt(g, j, k) == ByteAt(f, j, k) {
        GrownBytes(f, lo, hi, i, p, a, g, j, k);
      }
    }

    lemma GrownSummary(f: Files, i: nat, p: nat, a: nat, g: Files)
      requires SlotsOk(f, lo, hi) && i in f.inodes && p < NSLOTS && p != NDIRECT && Grown(f, lo, hi, i, p, a, g)
      ensures SlotsOk(g, lo, hi) && OnlyGrows(f, g, i) && BytesAre(f, g, i, 0, []) && At(g, i, p) == a
    {
      hide Grown, SlotsOk, At, ByteAt, BytesKept, BytesAre;
      GrownKeeps(f, lo, hi, i, p, a, g);
      SlotsInodes(f);
      SlotsInodes(g);
      GrownBytesAre(f, i, p, a, g);
      forall j | j in f.inodes && j != i ensures g.inodes[j] == f.inodes[j] { SameInode(f, g, i, p, j); }
    }

    lemma HasData(f: Files, lo: nat, hi: nat, i: nat, p: nat)
      requires SlotsOk(f, lo, hi) && i in f.inodes && p < NSLOTS && At(f, i, p) != 0
      ensures At(f, i, p) in f.data
    {
    }

    lemma StoredSummary(f: Files, i: nat, bn: nat, o: nat, s: seq<Byte>, g: Files)
      requires SlotsOk(f, lo, hi) && i in f.inodes && bn < MAXFILE && At(f, i, Place(bn)) != 0 && o + |s| <= BSIZE
      requires g == Stored(f, At(f, i, Place(bn)), o, s)
      ensures SlotsOk(g, lo, hi) && OnlyGrows(f, g, i) && BytesAre(f, g, i, bn * BSIZE + o, s)
    {
      var a := At(f, i, Place(bn));
      assert a in f.owner && f.owner[a] == Loc(i, Place(bn));
      StoredOk(f, lo, hi, a, o, s);
      forall j, p | j in f.inodes && 0 <= p < NSLOTS ensures At(g, j, p) == At(f, j, p) {
        StoredAt(f, lo, hi, a, o, s, j, p);
      }
      forall j, k | j in f.inodes && 0 <= k < MAXBYTES
        ensures ByteAt(g, j, k)
                == if j == i && bn * BSIZE + o <= k < bn * BSIZE + o + |s| then s[k - bn * BSIZE - o]
                    else ByteAt(f, j, k)
      {
        StoredBytes(f, lo, hi, i, bn, o, s, j, k);
      }
    }

    lemma Chain(f: Files, g: Files, h: Files, i: nat, off: nat, s: seq<Byte>)
      requires OnlyGrows(f, g, i) && OnlyGrows(g, h, i) && BytesAre(f, g, i, 0, []) && BytesAre(g, h, i, off, s)
      ensures OnlyGrows(f, h, i) && BytesAre(f, h, i, off, s)
    {
    }

    lemma Chain2(f: Files, g: Files, h: Files, i: nat, off: nat, s: seq<Byte>)
      requires OnlyGrows(f, g, i) && OnlyGrows(g, h, i) && BytesAre(f, g, i, off, s) && BytesAre(g, h, i, 0, [])
      ensures OnlyGrows(f, h, i) && BytesAre(f, h, i, off, s)
      ensures off + |s| <= MAXBYTES && NoHoles(g, i, off + |s|) ==> NoHoles(h, i, off + |s|)
    {
    }

    lemma StartWriting(f: Files, i: nat, off: nat)
      requires InodesOk(f) && i in f.inodes && FileOk(f, i) && off <= f.inodes[i].size
      ensures OnlyGrows(f, f, i) && BytesAre(f, f, i, off, []) && NoHoles(f, i, off)
      ensures Ledger(f, f, i, {}, {}, {}, 0, 0)
    {
    }

    /** An unaligned offset within the file falls into a block the file already has. */
    lemma FirstBlock(f: Files, g: Files, i: nat, off: nat)
      requires InodesOk(f) && i in f.inodes && FileOk(f, i) && off <= f.inodes[i].size && off % BSIZE != 0
      requires OnlyGrows(f, g, i)
      ensures At(g, i, Place(off / BSIZE)) != 0
    {
      assert off / BSIZE * BSIZE < off;
    }

    /** either_copyin into the buffer of a data block, and log_write. */
    method StorePatch(a: nat, o: nat, s: seq<Byte>)
      requires a in data && o + |s| <= BSIZE
      modifies this`data, this`logged
      ensures F() == Stored(old(F()), a, o, s) && logged == old(logged) + {a}
      ensures Journaled(old(Img()), Img())
    {
      hide Journaled, Patched;
      data := data[a := Patched(data[a], o, s)];
      logged := logged + {a};
      JournalData(old(Img()), Img(), a);
    }

    /** One round of writei's loop: map the block, copy into its buffer, log it. */
    method WriteBlock(i: nat, off: nat, s: seq<Byte>) returns (a: nat, ghost bits: set<nat>)
      requires Base() && i in inodes && off < MAXBYTES && off % BSIZE + |s| <= BSIZE
      modifies this`bitmap, this`data, this`inodes, this`logged, this`owner
      ensures Base() && OnlyGrows(old(F()), F(), i)
      ensures a == 0 ==> Full() && BytesAre(old(F()), F(), i, 0, [])
      ensures a != 0 ==> BytesAre(old(F()), F(), i, off, s)
      ensures i in inodes && At(F(), i, Place(off / BSIZE)) == a
      ensures logged <= old(logged) + bits + ({a, At(F(), i, NDIRECT)} - {0})
      ensures |bits| <= (if old(At(F(), i, Place(off / BSIZE))) == 0 && a != 0 then 1 else 0)
                        + (if old(At(F(), i, NDIRECT)) == 0 && At(F(), i, NDIRECT) != 0 then 1 else 0)
      ensures Journaled(old(Img()), Img())
    {
      hide SlotsOk, BitmapOk, At, ByteAt, Grown, Used, OnlyGrows, BytesAre, Journaled, Stored;
      ghost var f := F();
      var bn := off / BSIZE;
      a, bits := Bmap(i, bn);
      ghost var g := F();
      GrownSummary(f, i, Place(bn), a, g);
      if a != 0 {
        HasData(g, lo, hi, i, Place(bn));
        ghost var m := Img();
        StorePatch(a, off % BSIZE, s);
        JournaledTwice(old(Img()), m, Img());
        StoredSummary(g, i, bn, off % BSIZE, s, F());
        Chain(f, g, F(), i, off, s);
      }
    }
  
    /** The bytes of a file with s stored from off on, growing it if need be. */
    ghost function Spliced(c: seq<Byte>, off: nat, s: seq<Byte>): (r: seq<Byte>)
      requires off <= |c|
    {
      c[..off] + s + if off + |s| < |c| then c[off + |s|..] else []
    }

    /** What writei does to its file when tot bytes of s fit. */
    ghost predicate Wrote(f: Files, g: Files, i: nat, off: nat, s: seq<Byte>)
      requires InodesOk(f) && i in f.inodes && FileOk(f, i) && off <= f.inodes[i].size
    {
      && InodesOk(g) && g.inodes.Keys == f.inodes.Keys && FileOk(g, i)
      && Content(g, i) == Spliced(Content(f, i), off, s)
      && (forall j :: j in f.inodes && j != i ==>
            && g.inodes[j] == f.inodes[j] && (FileOk(f, j) ==> FileOk(g, j))
            && forall k :: 0 <= k < MAXBYTES ==> ByteAt(g, j, k) == ByteAt(f, j, k))
    }

    /** Changing only the size of i leaves every place and every byte. */
    lemma ResizedSame(g: Files, i: nat, size: nat, j: nat)
      requires InodesOk(g) && i in g.inodes && j in g.inodes
      ensures var h := WithInode(g, i, Inode(size, g.inodes[i].addrs));
              && InodesOk(h) && h.inodes.Keys == g.inodes.Keys && h.inodes[i].size == size
                 && (j != i ==> h.inodes[j] == g.inodes[j])
              && (forall p :: 0 <= p < NSLOTS ==> At(h, j, p) == At(g, j, p))
              && (forall k :: 0 <= k < MAXBYTES ==> ByteAt(h, j, k) == ByteAt(g, j, k))
    {
      hide Word;
    }

    lemma OtherBytes(f: Files, g: Files, i: nat, off: nat, s: seq<Byte>, size: nat, j: nat)
      requires OnlyGrows(f, g, i) && BytesAre(f, g, i, off, s) && j in f.inodes && j != i
      ensures var h := WithInode(g, i, Inode(size, g.inodes[i].addrs));
              && InodesOk(h) && j in h.inodes && h.inodes[j] == f.inodes[j] && (FileOk(f, j) ==> FileOk(h, j))
              && forall k :: 0 <= k < MAXBYTES ==> ByteAt(h, j, k) == ByteAt(f, j, k)
    {
      hide ByteAt, At;
      ResizedSame(g, i, size, j);
    }

    lemma OwnBytes(f: Files, g: Files, i: nat, off: nat, s: seq<Byte>, size: nat)
      requires OnlyGrows(f, g, i) && BytesAre(f, g, i, off, s) && FileOk(f, i) && off <= f.inodes[i].size
      requires off + |s| <= MAXBYTES && NoHoles(g, i, off + |s|)
      requires size == if off + |s| > f.inodes[i].size then off + |s| else f.inodes[i].size
      ensures var h := WithInode(g, i, Inode(size, g.inodes[i].addrs));
              InodesOk(h) && i in h.inodes && FileOk(h, i) && Content(h, i) == Spliced(Content(f, i), off, s)
    {
      hide ByteAt, At;
      ResizedSame(g, i, size, i);
      var h := WithInode(g, i, Inode(size, g.inodes[i].addrs));
      var c, d := Content(h, i), Spliced(Content(f, i), off, s);
      forall k | 0 <= k < |c| ensures c[k] == d[k] {
        assert ByteAt(g, i, k) == if off <= k < off + |s| then s[k - off] else ByteAt(f, i, k);
      }
    }

    lemma WroteFrom(f: Files, g: Files, h: Files, i: nat, off: nat, s: seq<Byte>)
      requires OnlyGrows(f, g, i) && BytesAre(f, g, i, off, s) && FileOk(f, i) && off <= f.inodes[i].size
      requires off + |s| <= MAXBYTES && NoHoles(g, i, off + |s|)
      requires var size := if off + |s| > f.inodes[i].size then off + |s| else f.inodes[i].size;
               h == WithInode(g, i, Inode(size, g.inodes[i].addrs))
      ensures Wrote(f, h, i, off, s)
    {
      hide ByteAt, At, NoHoles, BytesAre, Spliced, FileOk;
      var size := h.inodes[i].size;
      OwnBytes(f, g, i, off, s, size);
      forall j | j in f.inodes && j != i
        ensures && InodesOk(h) && j in h.inodes && h.inodes[j] == f.inodes[j] && (FileOk(f, j) ==> FileOk(h, j))
                && forall k :: 0 <= k < MAXBYTES ==> ByteAt(h, j, k) == ByteAt(f, j, k)
      {
        OtherBytes(f, g, i, off, s, size, j);
      }
    }

    /** A write to one file keeps every file without holes. */
    lemma WroteKeeps(f: Files, g: Files, i: nat, off: nat, s: seq<Byte>)
      requires InodesOk(f) && i in f.inodes && FilesOk(f) && off <= f.inodes[i].size && Wrote(f, g, i, off, s)
      ensures FilesOk(g)
    {
      hide ByteAt, At, NoHoles;
    }

    lemma WroteInodes(f: Files, g: Files, i: nat, off: nat, s: seq<Byte>)
      requires InodesOk(f) && i in f.inodes && FileOk(f, i) && off <= f.inodes[i].size && Wrote(f, g, i, off, s)
      ensures i in g.inodes && g.inodes == f.inodes[i := g.inodes[i]]
    {
      hide ByteAt, At, NoHoles, FileOk, Spliced;
    }

    /** readi, into a destination that accepts every byte. */
    method Readi(i: nat, off: nat, n: nat) returns (dst: seq<Byte>)
      requires Valid() && i in inodes && off < WORD_LIMIT && n < WORD_LIMIT
      modifies this`bitmap, this`data, this`inodes, this`logged, this`owner
      ensures Valid() && F() == old(F()) && bitmap == old(bitmap) && logged == old(logged)
      ensures var c := Content(F(), i);
              dst == if off > |c| || off + n >= WORD_LIMIT then []
                     else c[off..if off + n < |c| then off + n else |c|]
    {
      hide SlotsOk, BitmapOk, NoHoles, At, ByteAt;
      var size := inodes[i].size;
      FileOf(F(), i);
      WrapCheck(off, n);
      if off > size || (off + n) % WORD_LIMIT < off { return []; }
      dst := ReadRange(i, off, if off + n > size then size - off else n);
    }

    /** The 32-bit test off + n < off detects exactly the sums that do not fit. */
    lemma WrapCheck(off: nat, n: nat)
      requires off < WORD_LIMIT && n < WORD_LIMIT
      ensures (off + n) % WORD_LIMIT < off <==> off + n >= WORD_LIMIT
    {
    }

    /** The loop of readi. */
    method ReadRange(i: nat, off: nat, n: nat) returns (dst: seq<Byte>)
      requires Base() && i in inodes && FileOk(F(), i) && off + n <= inodes[i].size
      modifies this`bitmap, this`data, this`inodes, this`logged, this`owner
      ensures F() == old(F()) && bitmap == old(bitmap) && logged == old(logged)
      ensures dst == Content(F(), i)[off..off + n]
    {
      hide SlotsOk, BitmapOk, At, ByteAt, NoHoles;
      ghost var f, c := F(), Content(F(), i);
      dst := [];
      while |dst| < n
        invariant |dst| <= n && dst == c[off..off + |dst|]
        invariant F() == f && bitmap == old(bitmap) && logged == old(logged)
      {
        var o := off + |dst|;
        var m := if n - |dst| < BSIZE - o % BSIZE then n - |dst| else BSIZE - o % BSIZE;
        var more := ReadBlock(i, o, m);
        assert c[off..o + m] == c[off..o] + c[o..o + m];
        dst := dst + more;
      }
    }

    /** The block of a byte below the size is there. */
    lemma BlockThere(f: Files, i: nat, o: nat, m: nat)
      requires InodesOk(f) && i in f.inodes && FileOk(f, i) && o + m <= f.inodes[i].size && 0 < m
      ensures o / BSIZE < MAXFILE && At(f, i, Place(o / BSIZE)) != 0
    {
      hide At;
      assert o / BSIZE * BSIZE <= o;
    }

    lemma GrownNot(f: Files, i: nat, p: nat, a: nat, g: Files)
      requires SlotsOk(f, lo, hi) && i in f.inodes && p < NSLOTS && p != NDIRECT && At(f, i, p) != 0
               && Grown(f, lo, hi, i, p, a, g)
      ensures g == f && a == At(f, i, p)
    {
      hide At;
    }

    /** One round of readi's loop: map the block and copy out of its buffer. */
    method ReadBlock(i: nat, o: nat, m: nat) returns (s: seq<Byte>)
      requires Base() && i in inodes && FileOk(F(), i) && o + m <= inodes[i].size && 0 < m <= BSIZE - o % BSIZE
      modifies this`bitmap, this`data, this`inodes, this`logged, this`owner
      ensures F() == old(F()) && bitmap == old(bitmap) && logged == old(logged)
      ensures s == Content(F(), i)[o..o + m]
    {
      hide SlotsOk, BitmapOk, NoHoles, Grown, Used, At, Journaled;
      ghost var f := F();
      var bn := o / BSIZE;
      BlockThere(f, i, o, m);
      var a, _ := Bmap(i, bn);
      GrownNot(f, i, Place(bn), a, F());
      HasData(f, lo, hi, i, Place(bn));
      s := data[a].bytes[o % BSIZE..o % BSIZE + m];
      forall x | 0 <= x < m ensures s[x] == Content(f, i)[o + x] {
        assert (o + x) / BSIZE == bn && (o + x) % BSIZE == o % BSIZE + x;
      }
    }

    /** writei, from a source whose every byte can be read. */
    method Writei(i: nat, off: nat, src: seq<Byte>) returns (tot: int)
      requires Valid() && i in inodes && off < WORD_LIMIT && |src| < WORD_LIMIT
      modifies this
      ensures Valid() && (tot != -1 ==> InodeBlock(i) in logged)
      ensures tot == -1 <==> off > old(inodes[i].size) || off + |src| > MAXBYTES
      ensures tot == -1 ==> F() == old(F()) && bitmap == old(bitmap) && dinodes == old(dinodes) && logged == old(logged)
      ensures tot != -1 ==>
                && 0 <= tot <= |src| && StopsAtBlock(off, tot, |src|)
                && (tot < |src| ==> Full() && off + tot >= old(inodes[i].size))
                && Wrote(old(F()), F(), i, off, src[..tot]) && dinodes == old(dinodes)[i := inodes[i]]
      ensures |src| <= 3 * BSIZE && old(logged) == {} ==> |logged| <= MAXOPBLOCKS
      ensures Journaled(old(Img()), Img())
    {
      hide SlotsOk, BitmapOk, NoHoles, Journaled, Used;
      WrapCheck(off, |src|);
      JournalNone(Img());
      if off > inodes[i].size || (off + |src|) % WORD_LIMIT < off { return -1; }
      if off + |src| > MAXBYTES { return -1; }
      tot := WriteRange(i, off, src);
    }

    /** Below the old size every block was there already, so no block can be missing. */
    lemma PastEnd(f: Files, g: Files, i: nat, o: nat)
      requires OnlyGrows(f, g, i) && FileOk(f, i) && o < MAXBYTES && At(g, i, Place(o / BSIZE)) == 0
      ensures o >= f.inodes[i].size
    {
      assert o / BSIZE * BSIZE <= o;
    }

    /** A write that is cut short is cut at a block boundary. */
    ghost predicate StopsAtBlock(off: nat, tot: nat, n: nat) {
      tot == 0 || tot == n || (off + tot) % BSIZE == 0
    }

    lemma StopsFirst(off: nat, n: nat)
      ensures StopsAtBlock(off, 0, n)
    {
    }

    lemma StopsNext(off0: nat, tot: nat, n: nat, m: nat)
      requires tot < n
      requires var r := BSIZE - (off0 + tot) % BSIZE; m == if n - tot < r then n - tot else r
      ensures StopsAtBlock(off0, tot + m, n)
    {
      var o := off0 + tot;
      assert o == BSIZE * (o / BSIZE) + o % BSIZE;
      if m == BSIZE - o % BSIZE { assert off0 + tot + m == BSIZE * (o / BSIZE + 1); }
    }

    lemma FileOf(f: Files, i: nat)
      requires InodesOk(f) && FilesOk(f) && i in f.inodes
      ensures FileOk(f, i)
    {
      hide NoHoles;
    }

    /** writei past its guards: the loop, the new size, and iupdate. */
    method WriteRange(i: nat, off: nat, src: seq<Byte>) returns (tot: nat)
      requires Valid() && i in inodes && off <= inodes[i].size && off + |src| <= MAXBYTES
      modifies this
      ensures tot <= |src| && Valid() && InodeBlock(i) in logged && (tot < |src| ==> Full())
              && StopsAtBlock(off, tot, |src|)
      ensures tot < |src| ==> off + tot >= old(inodes[i].size)
      ensures Wrote(old(F()), F(), i, off, src[..tot]) && i in inodes && dinodes == old(dinodes)[i := inodes[i]]
      ensures |src| <= 3 * BSIZE && old(logged) == {} ==> |logged| <= MAXOPBLOCKS
      ensures Journaled(old(Img()), Img())
    {
      hide SlotsOk, BitmapOk, At, ByteAt, NoHoles, OnlyGrows, BytesAre, Wrote, Journaled, Used, FilesOk;
      ghost var f, m := F(), Img();
      assert FileOk(f, i) by { FileOf(f, i); }
      tot := WriteBlocks(i, off, src);
      ghost var g := F();
      Grew(f, g, i);
      var size := if off + tot > inodes[i].size then off + tot else inodes[i].size;
      inodes := inodes[i := Inode(size, inodes[i].addrs)];
      WroteFrom(f, g, F(), i, off, src[..tot]);
      WroteKeeps(f, F(), i, off, src[..tot]);
      WroteInodes(f, F(), i, off, src[..tot]);
      Resized(g, i, size);
      ghost var n := Img();
      Iupdate(i);
      JournaledTwice(m, n, Img());
    }

    lemma Grew(f: Files, g: Files, i: nat)
      requires OnlyGrows(f, g, i)
      ensures InodesOk(g) && i in g.inodes && g.inodes[i].size == f.inodes[i].size
    {
    }

    lemma Resized(f: Files, i: nat, size: nat)
      requires SlotsOk(f, lo, hi) && i in f.inodes
      ensures SlotsOk(WithInode(f, i, Inode(size, f.inodes[i].addrs)), lo, hi)
    {
      var g := WithInode(f, i, Inode(size, f.inodes[i].addrs));
      forall j, p | j in f.inodes && 0 <= p < NSLOTS ensures At(g, j, p) == At(f, j, p) {}
      hide At;
    }

    /** One more round of the loop extends what has been written. */
    lemma Advance(f: Files, g: Files, h: Files, i: nat, off0: nat, src: seq<Byte>, tot: nat, m: nat)
      requires tot + m <= |src| && off0 + |src| <= MAXBYTES && (off0 + tot) % BSIZE + m <= BSIZE
               && off0 + tot < MAXBYTES
      requires OnlyGrows(f, g, i) && OnlyGrows(g, h, i)
      requires BytesAre(f, g, i, off0, src[..tot]) && BytesAre(g, h, i, off0 + tot, src[tot..tot + m])
      requires NoHoles(g, i, off0 + tot) && At(h, i, Place((off0 + tot) / BSIZE)) != 0
      ensures OnlyGrows(f, h, i) && BytesAre(f, h, i, off0, src[..tot + m]) && NoHoles(h, i, off0 + tot + m)
    {
      hide At, Place;
      forall j, k | j in f.inodes && 0 <= k < MAXBYTES
        ensures ByteAt(h, j, k) == if j == i && off0 <= k < off0 + tot + m then src[k - off0] else ByteAt(f, j, k)
      {
        assert ByteAt(g, j, k) == if j == i && off0 <= k < off0 + tot then src[k - off0] else ByteAt(f, j, k);
      }
      forall bn: nat | bn < MAXFILE && bn * BSIZE < off0 + tot + m ensures At(h, i, Place(bn)) != 0 {
        if bn * BSIZE >= off0 + tot { assert bn == (off0 + tot) / BSIZE; }
        else { assert At(g, i, Place(bn)) != 0; }
      }
    }

    /** The log space used after t rounds: the data blocks D, the bitmap blocks B of at most
        `added` new data blocks and one new indirect block, and the indirect block. */
    ghost predicate Ledger(f: Files, g: Files, i: nat, log: set<nat>, D: set<nat>, B: set<nat>, t: nat, added: nat)
      requires InodesOk(f) && InodesOk(g) && i in f.inodes && i in g.inodes
    {
      && log <= D + B + ({At(g, i, NDIRECT)} - {0})
      && |D| <= t && |B| <= added + (if At(f, i, NDIRECT) == 0 && At(g, i, NDIRECT) != 0 then 1 else 0)
    }

    lemma LedgerStep(f: Files, g: Files, h: Files, i: nat, log: set<nat>, log': set<nat>,
                     D: set<nat>, B: set<nat>, t: nat, added: nat, a: nat, bits: set<nat>, n: nat)
      requires OnlyGrows(f, g, i) && OnlyGrows(g, h, i) && Ledger(f, g, i, log, D, B, t, added)
      requires log' <= log + bits + ({a, At(h, i, NDIRECT)} - {0})
      requires |bits| <= n + (if At(g, i, NDIRECT) == 0 && At(h, i, NDIRECT) != 0 then 1 else 0)
      ensures a != 0 ==> Ledger(f, h, i, log', D + {a}, B + bits, t + 1, added + n)
      ensures a == 0 ==> Ledger(f, h, i, log', D, B + bits, t, added + n)
    {
      UnionSize(B, bits);
      UnionSize(D, {a});
    }

    lemma UnionSize(x: set<nat>, y: set<nat>)
      ensures |x + y| <= |x| + |y|
    {
      assert x + y == x + (y - x);
      assert y == (y - x) + (y * x);
    }

    lemma LedgerBound(f: Files, g: Files, i: nat, log: set<nat>, D: set<nat>, B: set<nat>, t: nat, added: nat)
      requires InodesOk(f) && InodesOk(g) && i in f.inodes && i in g.inodes
      requires Ledger(f, g, i, log, D, B, t, added)
      ensures |log| <= t + added + 2
    {
      var I := {At(g, i, NDIRECT)} - {0};
      UnionSize(D, B);
      UnionSize(D + B, I);
      SubsetSize(log, D + B + I);
    }

    lemma {:induction false} SubsetSize(x: set<nat>, y: set<nat>)
      requires x <= y
      ensures |x| <= |y|
      decreases |x|
    {
      if x != {} {
        var e :| e in x;
        SubsetSize(x - {e}, y - {e});
      }
    }

    /** After t rounds: every round but the last ends on a block boundary, and the block of an
        unaligned first round is not one of the `added` ones. */
    ghost predicate Rounds(off0: nat, len: nat, tot: nat, t: nat, added: nat)
    {
      && added + (if off0 % BSIZE != 0 && t > 0 then 1 else 0) <= t
      && (if t == 0 then tot == 0 else (t - 1) * BSIZE < off0 % BSIZE + tot)
      && (tot < len ==> t == 0 || off0 % BSIZE + tot == t * BSIZE)
    }

    lemma RoundsStep(off0: nat, len: nat, tot: nat, t: nat, added: nat, m: nat, n: nat)
      requires Rounds(off0, len, tot, t, added) && tot < len && n <= 1 && (t == 0 && off0 % BSIZE != 0 ==> n == 0)
      requires m == var room := BSIZE - (off0 + tot) % BSIZE; if len - tot < room then len - tot else room
      ensures Rounds(off0, len, tot + m, t + 1, added + n)
    {
      if t > 0 {
        assert off0 + tot == (off0 / BSIZE + t) * BSIZE;
        assert (off0 + tot) % BSIZE == 0;
      }
    }

    lemma RoundsBound(off0: nat, len: nat, tot: nat, t: nat, added: nat)
      requires Rounds(off0, len, tot, t, added) && tot <= len <= 3 * BSIZE
      ensures t + added + 2 <= MAXOPBLOCKS - 1
    {
      if off0 % BSIZE == 0 { assert t <= 3; } else { assert t <= 4; }
    }

    /** Where the loop of writei stands: tot bytes of src are in the file, nothing else changed,
        and (when the operation started with an empty log) the log space is accounted for. */
    ghost predicate Progress(f: Files, g: Files, i: nat, off0: nat, src: seq<Byte>, tot: nat, counting: bool,
                             log: set<nat>, k: Book)
    {
      && tot <= |src| && OnlyGrows(f, g, i) && BytesAre(f, g, i, off0, src[..tot])
      && off0 + |src| <= MAXBYTES && NoHoles(g, i, off0 + tot)
      && Rounds(off0, |src|, tot, k.t, k.added)
      && (counting ==> Ledger(f, g, i, log, k.D, k.B, k.t, k.added))
    }

    lemma ProgressStart(f: Files, i: nat, off0: nat, src: seq<Byte>, counting: bool, log: set<nat>)
      requires InodesOk(f) && i in f.inodes && FileOk(f, i) && off0 <= f.inodes[i].size && off0 + |src| <= MAXBYTES
      requires counting ==> log == {}
      ensures Progress(f, f, i, off0, src, 0, counting, log, Book({}, {}, 0, 0))
    {
      StartWriting(f, i, off0);
      assert src[..0] == [];
    }

    /** A round that finds its block. */
    lemma ProgressRound(f: Files, g: Files, h: Files, i: nat, off0: nat, src: seq<Byte>, tot: nat, m: nat,
                        counting: bool,
                        log: set<nat>, log': set<nat>, k: Book, a: nat, bits: set<nat>, n: nat)
      requires InodesOk(f) && i in f.inodes && FileOk(f, i) && off0 <= f.inodes[i].size
      requires Progress(f, g, i, off0, src, tot, counting, log, k) && tot < |src|
      requires m == var room := BSIZE - (off0 + tot) % BSIZE; if |src| - tot < room then |src| - tot else room
      requires OnlyGrows(g, h, i) && BytesAre(g, h, i, off0 + tot, src[tot..tot + m])
      requires a != 0 && At(h, i, Place((off0 + tot) / BSIZE)) == a
      requires n == if At(g, i, Place((off0 + tot) / BSIZE)) == 0 then 1 else 0
      requires log' <= log + bits + ({a, At(h, i, NDIRECT)} - {0})
      requires |bits| <= n + (if At(g, i, NDIRECT) == 0 && At(h, i, NDIRECT) != 0 then 1 else 0)
      ensures Progress(f, h, i, off0, src, tot + m, counting, log', Book(k.D + {a}, k.B + bits, k.t + 1, k.added + n))
    {
      hide At, Place, ByteAt, NoHoles, BytesAre, OnlyGrows, Ledger, FileOk;
      if k.t == 0 && off0 % BSIZE != 0 { FirstBlock(f, g, i, off0); }
      RoundsStep(off0, |src|, tot, k.t, k.added, m, n);
      hide Rounds;
      Advance(f, g, h, i, off0, src, tot, m);
      if counting { LedgerStep(f, g, h, i, log, log', k.D, k.B, k.t, k.added, a, bits, n); }
    }

    /** A round that runs out of blocks. */
    lemma ProgressStop(f: Files, g: Files, h: Files, i: nat, off0: nat, src: seq<Byte>, tot: nat, counting: bool,
                       log: set<nat>, log': set<nat>, k: Book, bits: set<nat>)
      requires Progress(f, g, i, off0, src, tot, counting, log, k)
      requires OnlyGrows(g, h, i) && BytesAre(g, h, i, 0, [])
      requires log' <= log + bits + ({0, At(h, i, NDIRECT)} - {0})
      requires |bits| <= if At(g, i, NDIRECT) == 0 && At(h, i, NDIRECT) != 0 then 1 else 0
      ensures Progress(f, h, i, off0, src, tot, counting, log', Book(k.D, k.B + bits, k.t, k.added))
    {
      Chain2(f, g, h, i, off0, src[..tot]);
      hide At, ByteAt, NoHoles, BytesAre, Rounds;
      if counting { LedgerStep(f, g, h, i, log, log', k.D, k.B, k.t, k.added, 0, bits, 0); }
    }

    /** Three blocks' worth of bytes touch at most four blocks; if there are four, the first was
        only partly overwritten, so it was already there. */
    lemma ProgressBound(f: Files, g: Files, i: nat, off0: nat, src: seq<Byte>, tot: nat, log: set<nat>, k: Book)
      requires Progress(f, g, i, off0, src, tot, true, log, k) && |src| <= 3 * BSIZE
      ensures |log| <= MAXOPBLOCKS - 1
    {
      RoundsBound(off0, |src|, tot, k.t, k.added);
      LedgerBound(f, g, i, log, k.D, k.B, k.t, k.added);
    }

    lemma ProgressGrows(f: Files, g: Files, i: nat, off0: nat, src: seq<Byte>, tot: nat, counting: bool, log: set<nat>,
                        k: Book)
      requires Progress(f, g, i, off0, src, tot, counting, log, k)
      ensures OnlyGrows(f, g, i) && BytesAre(f, g, i, off0, src[..tot]) && NoHoles(g, i, off0 + tot)
      ensures tot <= |src| && off0 + |src| <= MAXBYTES
    {
    }

    /** The loop of writei. */
    method WriteBlocks(i: nat, off0: nat, src: seq<Byte>) returns (tot: nat)
      requires Base() && i in inodes && FileOk(F(), i) && off0 <= inodes[i].size && off0 + |src| <= MAXBYTES
      modifies this`bitmap, this`data, this`inodes, this`logged, this`owner
      ensures tot <= |src| && Base() && (tot < |src| ==> Full())
      ensures OnlyGrows(old(F()), F(), i) && BytesAre(old(F()), F(), i, off0, src[..tot])
      ensures NoHoles(F(), i, off0 + tot) && StopsAtBlock(off0, tot, |src|)
      ensures tot < |src| ==> off0 + tot >= old(inodes[i].size)
      ensures |src| <= 3 * BSIZE && old(logged) == {} ==> |logged| <= MAXOPBLOCKS - 1
      ensures Journaled(old(Img()), Img())
    {
      hide SlotsOk, BitmapOk, At, ByteAt, OnlyGrows, BytesAre, Ledger, NoHoles, Rounds, FileOk, Used, Place,
        StopsAtBlock, Journaled, Progress, InodesOk;
      ghost var f, counting := F(), logged == {};
      ghost var k, m := Book({}, {}, 0, 0), Img();
      JournalNone(m);
      tot := 0;
      StopsFirst(off0, |src|);
      ProgressStart(f, i, off0, src, counting, logged);
      while tot < |src|
        invariant tot <= |src| && Base() && i in inodes && StopsAtBlock(off0, tot, |src|) && Journaled(m, Img())
        invariant Progress(f, F(), i, off0, src, tot, counting, logged, k)
      {
        var off := off0 + tot;
        var n1 := if |src| - tot < BSIZE - off % BSIZE then |src| - tot else BSIZE - off % BSIZE;
        ghost var g, log, n0 := F(), logged, Img();
        ghost var n := if At(g, i, Place(off / BSIZE)) == 0 then 1 else 0;
        var a, bits := WriteBlock(i, off, src[tot..tot + n1]);
        JournaledTwice(m, n0, Img());
        if a == 0 {
          ProgressStop(f, g, F(), i, off0, src, tot, counting, log, logged, k, bits);
          k := Book(k.D, k.B + bits, k.t, k.added);
          ProgressGrows(f, F(), i, off0, src, tot, counting, logged, k);
          PastEnd(f, F(), i, off);
          break;
        }
        ProgressRound(f, g, F(), i, off0, src, tot, n1, counting, log, logged, k, a, bits, n);
        k := Book(k.D + {a}, k.B + bits, k.t + 1, k.added + n);
        StopsNext(off0, tot, |src|, n1);
        tot := tot + n1;
      }
      ProgressGrows(f, F(), i, off0, src, tot, counting, logged, k);
      if counting && |src| <= 3 * BSIZE { ProgressBound(f, F(), i, off0, src, tot, logged, k); }
    }
  
    lemma SpliceTwice(c: seq<Byte>, off: nat, s: seq<Byte>, t: seq<Byte>)
      requires off <= |c|
      ensures off + |s| <= |Spliced(c, off, s)|
      ensures Spliced(Spliced(c, off, s), off + |s|, t) == Spliced(c, off, s + t)
    {
    }

    lemma WroteTwice(f: Files, g: Files, h: Files, i: nat, off: nat, s: seq<Byte>, t: seq<Byte>)
      requires InodesOk(f) && i in f.inodes && FileOk(f, i) && off <= f.inodes[i].size
      requires Wrote(f, g, i, off, s) && off + |s| <= g.inodes[i].size && Wrote(g, h, i, off + |s|, t)
      ensures Wrote(f, h, i, off, s + t)
    {
      hide ByteAt, NoHoles;
      SpliceTwice(Content(f, i), off, s, t);
    }

    lemma WroteNothing(f: Files, i: nat, off: nat)
      requires InodesOk(f) && i in f.inodes && FileOk(f, i) && off <= f.inodes[i].size
      ensures Wrote(f, f, i, off, [])
    {
      assert Content(f, i) == Spliced(Content(f, i), off, []);
    }

    /** The disk, whatever has been logged. */
    ghost function Disk(m: Image): (d: Image) { m.(logged := {}) }

    /** A transaction that started with an empty log, logged every block it changed, and fits. */
    ghost predicate Atomic(t: Txn) {
      t.before.logged == {} && Journaled(t.before, t.after) && |t.after.logged| <= MAXOPBLOCKS
    }

    /** The transactions follow one another and take the disk from start to end. */
    ghost predicate Committed(txns: seq<Txn>, start: Image, end: Image)
      decreases |txns|
    {
      if txns == [] then Disk(start) == Disk(end)
      else
        var t := txns[|txns| - 1];
        Atomic(t) && Disk(t.after) == Disk(end) && Committed(txns[..|txns| - 1], start, t.before)
    }

    lemma CommittedMore(txns: seq<Txn>, start: Image, t: Txn)
      requires Committed(txns, start, t.before) && Atomic(t)
      ensures Committed(txns + [t], start, t.after)
    {
      hide Atomic;
      assert (txns + [t])[..|txns|] == txns;
    }

    lemma {:induction false} CommittedDisk(txns: seq<Txn>, start: Image, end: Image, end': Image)
      requires Committed(txns, start, end) && Disk(end) == Disk(end')
      ensures Committed(txns, start, end')
    {
      hide Atomic;
    }

    /** The bytes of one transaction of filewrite: three blocks' worth. */
    const CHUNK: nat := (MAXOPBLOCKS - 1 - 1 - 2) / 2 * BSIZE

    /** One round of filewrite's loop: begin_op, writei, end_op. */
    method WriteChunk(i: nat, off: nat, src: seq<Byte>) returns (r: int, ghost t: Txn)
      requires Valid() && i in inodes && off < WORD_LIMIT && |src| <= CHUNK
      modifies this
      ensures Valid() && i in inodes
      ensures r == -1 <==> off > old(inodes[i].size) || off + |src| > MAXBYTES
      ensures r == -1 ==> F() == old(F())
      ensures r != -1 ==> 0 <= r <= |src| && (r < |src| ==> Full()) && Wrote(old(F()), F(), i, off, src[..r])
      ensures Atomic(t) && Disk(t.before) == Disk(old(Img())) && t.after == Img()
    {
      hide SlotsOk, BitmapOk, NoHoles, Wrote, Used, Journaled, StopsAtBlock, FilesOk;
      logged := {};
      ghost var m := Img();
      r := Writei(i, off, src);
      t := Txn(m, Img());
      if r != -1 { FileOf(old(F()), i); WroteInodes(old(F()), F(), i, off, src[..r]); }
      else { EmptyLog(logged); }
    }

    lemma EmptyLog(log: set<nat>)
      ensures log == {} ==> |log| <= MAXOPBLOCKS
    {
    }

    /** How many transactions a write of n bytes takes when it gets as far as `done`. */
    function Transactions(n: nat, done: nat): (k: nat)
    {
      if done == n then (n + CHUNK - 1) / CHUNK else done / CHUNK + 1
    }

    lemma ChunkDiv(x: nat, c: nat)
      requires 3072 * c <= x < 3072 * c + 3072
      ensures x / CHUNK == c
    {
      assert CHUNK == 3072;
      assert x == 3072 * (x / 3072) + x % 3072;
    }

    /** After c rounds that each wrote their whole chunk, k of n bytes are written. */
    ghost predicate Counted(k: nat, n: nat, c: nat) {
      3072 * c - 3072 < k <= 3072 * c && (k < n ==> k == 3072 * c) && CHUNK == 3072
    }

    lemma CountedNext(k: nat, n: nat, c: nat, r: nat)
      requires Counted(k, n, c) && k < n && r <= if n - k > CHUNK then CHUNK else n - k
      ensures if r == if n - k > CHUNK then CHUNK else n - k then Counted(k + r, n, c + 1) else (k + r) / CHUNK == c
    {
      var m := if n - k > CHUNK then CHUNK else n - k;
      if r != m { ChunkDiv(k + r, c); }
    }

    lemma CountedStart(n: nat)
      ensures Counted(0, n, 0)
    {
    }

    lemma CountedEnd(n: nat, c: nat)
      requires Counted(n, n, c)
      ensures c == Transactions(n, n)
    {
      ChunkDiv(n + CHUNK - 1, c);
    }

    lemma CommittedNone(m: Image)
      ensures Committed([], m, m)
    {
    }

    /** filewrite on an inode: the write is cut into chunks of at most three blocks, each its own
        transaction. */
    method Filewrite(i: nat, off: nat, src: seq<Byte>) returns (ret: int, newOff: nat, ghost txns: seq<Txn>)
      requires Valid() && i in inodes && off < WORD_LIMIT && |src| < 0x8000_0000
      modifies this
      ensures Valid() && off <= newOff <= off + |src|
      ensures ret == if newOff == off + |src| then |src| else -1
      ensures off > old(inodes[i].size) ==> F() == old(F()) && newOff == off
      ensures off <= old(inodes[i].size) ==> Wrote(old(F()), F(), i, off, src[..newOff - off])
      ensures newOff < off + |src| ==> off > old(inodes[i].size) || off + |src| > MAXBYTES || Full()
      ensures Committed(txns, old(Img()), Img()) && |txns| == Transactions(|src|, newOff - off)
    {
      hide SlotsOk, BitmapOk, At, ByteAt, NoHoles, Wrote, Used, Committed, FilesOk, Atomic, Counted;
      ghost var f, m := F(), Img();
      FileOf(f, i);
      newOff, txns := off, [];
      CommittedNone(m);
      CountedStart(|src|);
      var k := 0;
      if off <= inodes[i].size { WroteNothing(f, i, off); }
      assert src[..0] == [];
      var stop := false;
      while k < |src| && !stop
        invariant 0 <= k <= |src| && Valid() && i in inodes && FileOk(F(), i) && newOff <= off + |src|
        invariant !stop ==> newOff == off + k
        invariant hi <= |bitmap| * BPB
        invariant stop ==> off + k <= newOff < off + |src|
                           && (off > f.inodes[i].size || off + |src| > MAXBYTES || Full())
        invariant off > f.inodes[i].size ==> F() == f && newOff == off
        invariant off <= f.inodes[i].size ==> Wrote(f, F(), i, off, src[..newOff - off]) && newOff <= inodes[i].size
        invariant Committed(txns, m, Img())
        invariant if stop then |txns| == (newOff - off) / CHUNK + 1 else Counted(k, |src|, |txns|)
        decreases |src| - k, !stop
      {
        var n1 := if |src| - k > CHUNK then CHUNK else |src| - k;
        ghost var g, n := F(), Img();
        var r;
        ghost var t;
        r, t := WriteChunk(i, newOff, src[k..k + n1]);
        CommittedDisk(txns, m, n, t.before);
        CommittedMore(txns, m, t);
        txns := txns + [t];
        FileOf(F(), i);
        if r >= 0 {
          Chunk(f, g, F(), i, off, src, k, n1, r);
          newOff := newOff + r;
        }
        CountedNext(k, |src|, |txns| - 1, newOff - off - k);
        if r != n1 {
          stop := true;
        } else {
          k := k + r;
        }
      }
      if !stop { CountedEnd(|src|, |txns|); }
      ret := if k == |src| then |src| else -1;
    }

    lemma Chunk(f: Files, g: Files, h: Files, i: nat, off: nat, src: seq<Byte>, k: nat, n1: nat, r: nat)
      requires InodesOk(f) && i in f.inodes && FileOk(f, i) && off <= f.inodes[i].size && r <= n1 && k + n1 <= |src|
      requires InodesOk(g) && i in g.inodes && FileOk(g, i) && off + k <= g.inodes[i].size
      requires Wrote(f, g, i, off, src[..k])
      requires Wrote(g, h, i, off + k, src[k..k + n1][..r])
      ensures Wrote(f, h, i, off, src[..k + r]) && FileOk(h, i) && off + k + r <= h.inodes[i].size
    {
      hide ByteAt, NoHoles;
      assert src[k..k + n1][..r] == src[k..k + r];
      assert src[..k] + src[k..k + r] == src[..k + r];
      WroteTwice(f, g, h, i, off, src[..k], src[k..k + r]);
      SpliceTwice(Content(g, i), off + k, src[k..k + r], []);
    }
  
    /** What freeing the block of a direct address leaves. */
    lemma DroppedDirect(bm: Bits, f: Files, i: nat, p: nat)
      requires SlotsOk(f, lo, hi) && BitmapOk(bm, f.owner, lo, hi) && i in f.inodes && p < NDIRECT
      ensures var a := f.inodes[i].addrs[p];
              && a == At(f, i, p)
              && (a != 0 ==> lo <= a < hi && Used(bm, a) && BitmapOk(Clear(bm, a), f.owner - {a}, lo, hi)
                             && SlotsOk(Dropped(f, i, p), lo, hi))
    {
      var a := f.inodes[i].addrs[p];
      assert At(f, i, p) == a;
      hide Used, Clear;
      if a != 0 {
        ClearedOk(bm, f.owner, lo, hi, a);
        DroppedOk(f, lo, hi, i, p);
      }
    }

    /** bfree and clear one of the direct addresses. */
    method DropDirect(i: nat, p: nat) returns (ok: bool)
      requires Base() && i in inodes && p < NDIRECT
      modifies this`bitmap, this`inodes, this`logged, this`owner
      ensures ok && Base() && i in inodes && F() == if old(At(F(), i, p)) == 0 then old(F())
          else Dropped(old(F()), i, p)
      ensures Journaled(old(Img()), Img())
    {
      hide SlotsOk, BitmapOk, Used, Clear, At, Journaled;
      var a := inodes[i].addrs[p];
      ghost var f := F();
      JournalNone(Img());
      DroppedDirect(bitmap, f, i, p);
      if a == 0 { return true; }
      ok := Bfree(a);
      inodes := inodes[i := Inode(inodes[i].size, inodes[i].addrs[p := 0])];
      owner := owner - {a};
    }

    lemma EntryIs(f: Files, i: nat, ind: nat, j: nat)
      requires SlotsOk(f, lo, hi) && i in f.inodes && At(f, i, NDIRECT) == ind != 0 && j < NINDIRECT
      ensures ind in f.data && Word(f.data[ind], j) == At(f, i, NDIRECT + j + 1)
    {
      HasData(f, lo, hi, i, NDIRECT);
      hide SlotsOk, Word;
    }

    lemma NoEntries(f: Files, i: nat)
      requires InodesOk(f) && i in f.inodes
      ensures f.owner - Entries(f, i, 0) == f.owner
    {
    }

    /** bfree every entry of the indirect block, leaving the block itself as it is. */
    method FreeEntries(i: nat, ind: nat) returns (ok: bool)
      requires Base() && i in inodes && At(F(), i, NDIRECT) == ind != 0
      modifies this`bitmap, this`logged
      ensures ok && |bitmap| == |old(bitmap)| && BitmapOk(bitmap, owner - Entries(F(), i, NINDIRECT), lo, hi)
      ensures Journaled(old(Img()), Img())
    {
      hide SlotsOk, BitmapOk, Used, Clear, Word, Entries, At, Journaled, InodesOk;
      ghost var f, m := F(), Img();
      JournalNone(m);
      NoEntries(f, i);
      ok := true;
      var j := 0;
      while j < NINDIRECT
        invariant 0 <= j <= NINDIRECT && ok && |bitmap| == |old(bitmap)| && Journaled(m, Img())
        invariant BitmapOk(bitmap, owner - Entries(f, i, j), lo, hi)
      {
        EntryIs(f, i, ind, j);
        NextEntry(bitmap, f, lo, hi, i, j);
        var a := Word(data[ind], j);
        if a != 0 {
          ghost var n := Img();
          ok := Bfree(a);
          JournaledTwice(m, n, Img());
        }
        j := j + 1;
      }
    }

    lemma DroppedIndirect(f: Files, i: nat)
      requires SlotsOk(f, lo, hi) && i in f.inodes
      ensures f.inodes[i].addrs[NDIRECT] == At(f, i, NDIRECT) && SlotsOk(Dropped(f, i, NDIRECT), lo, hi)
    {
      DroppedOk(f, lo, hi, i, NDIRECT);
    }

    /** The indirect half of itrunc. */
    method DropIndirect(i: nat) returns (ok: bool)
      requires Base() && i in inodes
      modifies this`bitmap, this`inodes, this`logged, this`owner
      ensures ok && Base() && F() == if old(At(F(), i, NDIRECT)) == 0 then old(F()) else Dropped(old(F()), i, NDIRECT)
      ensures Journaled(old(Img()), Img())
    {
      hide SlotsOk, BitmapOk, Used, Clear, Entries, BlocksFrom, At, Journaled;
      var ind := inodes[i].addrs[NDIRECT];
      ghost var f, m := F(), Img();
      JournalNone(m);
      DroppedIndirect(f, i);
      if ind == 0 { return true; }
      ok := FreeEntries(i, ind);
      ghost var n := Img();
      LastOfIndirect(bitmap, f, lo, hi, i);
      ok := Bfree(ind);
      JournaledTwice(m, n, Img());
      inodes := inodes[i := Inode(inodes[i].size, inodes[i].addrs[NDIRECT := 0])];
      owner := owner - BlocksFrom(owner, i, NDIRECT);
    }

    /** g is f without the first k direct addresses of inode i and their blocks. */
    ghost predicate Without(f: Files, g: Files, i: nat, k: nat)
    {
      && k <= NDIRECT && InodesOk(f) && InodesOk(g) && i in f.inodes && g.inodes.Keys == f.inodes.Keys
         && g.data == f.data
      && (forall x :: 0 <= x < k ==> g.inodes[i].addrs[x] == 0)
      && (forall x :: k <= x <= NDIRECT ==> g.inodes[i].addrs[x] == f.inodes[i].addrs[x])
      && (forall j :: j in f.inodes && j != i ==> g.inodes[j] == f.inodes[j])
      && (forall a :: a in g.owner <==> a in f.owner && !(f.owner[a].inum == i && f.owner[a].p < k))
      && (forall a :: a in g.owner ==> g.owner[a] == f.owner[a])
    }

    lemma WithoutNone(f: Files, i: nat)
      requires InodesOk(f) && i in f.inodes
      ensures Without(f, f, i, 0)
    {
    }

    /** The block of a direct address is owned by that address only. */
    lemma OwnedDirect(g: Files, i: nat, p: nat)
      requires SlotsOk(g, lo, hi) && i in g.inodes && p <= NDIRECT
      ensures At(g, i, p) == g.inodes[i].addrs[p]
      ensures forall a :: a in g.owner ==> (g.owner[a] == Loc(i, p) <==> a == g.inodes[i].addrs[p])
      ensures 0 !in g.owner
    {
      assert At(g, i, p) == g.inodes[i].addrs[p];
      hide Word;
      forall a | a in g.owner ensures g.owner[a] == Loc(i, p) <==> a == g.inodes[i].addrs[p] {
        assert At(g, g.owner[a].inum, g.owner[a].p) == a;
      }
    }

    lemma WithoutStep(f: Files, g: Files, h: Files, i: nat, k: nat)
      requires Without(f, g, i, k) && k < NDIRECT && SlotsOk(g, lo, hi)
      requires h == if At(g, i, k) == 0 then g else Dropped(g, i, k)
      ensures Without(f, h, i, k + 1)
    {
      hide SlotsOk, At;
      OwnedDirect(g, i, k);
    }

    /** No block is owned by an entry of an indirect block that is not there. */
    lemma OwnedIndirect(g: Files, i: nat)
      requires SlotsOk(g, lo, hi) && i in g.inodes && At(g, i, NDIRECT) == 0
      ensures forall a :: a in g.owner && g.owner[a].inum == i ==> g.owner[a].p < NDIRECT
    {
      forall a | a in g.owner && g.owner[a].inum == i ensures g.owner[a].p < NDIRECT {
        assert At(g, g.owner[a].inum, g.owner[a].p) == a;
      }
    }

    lemma OwnersLeft(f: Files, g: Files, h: Files, i: nat)
      requires Without(f, g, i, NDIRECT) && i in g.inodes
      requires if At(g, i, NDIRECT) == 0 then h.owner == g.owner
          else h.owner == g.owner - BlocksFrom(g.owner, i, NDIRECT)
      requires At(g, i, NDIRECT) == 0 ==> forall a :: a in g.owner && g.owner[a].inum == i ==> g.owner[a].p < NDIRECT
      ensures h.owner == f.owner - BlocksFrom(f.owner, i, 0)
    {
      hide At;
    }

    lemma DroppedIs(f: Files, i: nat)
      requires InodesOk(f) && i in f.inodes
      ensures Dropped(f, i, NDIRECT) == Files(f.data,
                f.inodes[i := Inode(f.inodes[i].size, f.inodes[i].addrs[NDIRECT := 0])],
                f.owner - BlocksFrom(f.owner, i, NDIRECT))
    {
    }

    lemma NothingLeft(f: Files, g: Files, h: Files, i: nat)
      requires Without(f, g, i, NDIRECT) && SlotsOk(g, lo, hi)
      requires h == if At(g, i, NDIRECT) == 0 then g else Dropped(g, i, NDIRECT)
      ensures h.data == f.data && i in h.inodes && h.inodes[i].addrs == seq(NDIRECT + 1, _ => 0)
      ensures h.inodes == f.inodes[i := h.inodes[i]]
      ensures h.owner == f.owner - BlocksFrom(f.owner, i, 0)
    {
      hide SlotsOk, At, Dropped, BlocksFrom;
      OwnedDirect(g, i, NDIRECT);
      if At(g, i, NDIRECT) == 0 { OwnedIndirect(g, i); }
      DroppedIs(g, i);
      OwnersLeft(f, g, h, i);
      assert h.inodes[i].addrs == seq(NDIRECT + 1, _ => 0);
    }

    lemma BitsGiven(bm: Bits, f: Files, bm': Bits, owner': map<nat, Loc>, i: nat)
      requires SlotsOk(f, lo, hi) && BitmapOk(bm, f.owner, lo, hi) && BitmapOk(bm', owner', lo, hi)
      requires owner' == f.owner - BlocksFrom(f.owner, i, 0)
      ensures forall b: nat :: b < hi ==> (Used(bm', b) <==> Used(bm, b) && b !in BlocksFrom(f.owner, i, 0))
    {
      hide Used;
    }

    /** The direct half of itrunc. */
    method DropAllDirect(i: nat) returns (ok: bool)
      requires Base() && i in inodes
      modifies this`bitmap, this`inodes, this`logged, this`owner
      ensures ok && Base() && i in inodes && Without(old(F()), F(), i, NDIRECT)
      ensures Journaled(old(Img()), Img())
    {
      hide SlotsOk, BitmapOk, Used, Without, At, Dropped, Journaled;
      ghost var f, m := F(), Img();
      JournalNone(m);
      WithoutNone(f, i);
      ok := true;
      var k := 0;
      while k < NDIRECT
        invariant 0 <= k <= NDIRECT && ok && Base() && i in inodes && Without(f, F(), i, k) && Journaled(m, Img())
      {
        ghost var g, n := F(), Img();
        ok := DropDirect(i, k);
        JournaledTwice(m, n, Img());
        WithoutStep(f, g, F(), i, k);
        k := k + 1;
      }
    }

    /** An inode that itrunc leaves alone, with the data it names. */
    lemma SameFile(f: Files, g: Files, j: nat)
      requires InodesOk(f) && InodesOk(g) && j in f.inodes && j in g.inodes && g.data == f.data
               && g.inodes[j] == f.inodes[j]
      ensures FileOk(f, j) ==> FileOk(g, j) && Content(g, j) == Content(f, j)
    {
      assert forall p :: 0 <= p < NSLOTS ==> At(g, j, p) == At(f, j, p);
      hide At;
      if FileOk(f, j) { assert forall k :: 0 <= k < MAXBYTES ==> ByteAt(g, j, k) == ByteAt(f, j, k); }
    }

    lemma Emptied(f: Files, g: Files, i: nat)
      requires InodesOk(f) && FilesOk(f) && i in f.inodes && g.data == f.data && InodesOk(g)
      requires g.inodes == f.inodes[i := Inode(0, seq(NDIRECT + 1, _ => 0))]
      ensures FilesOk(g) && forall j :: j in f.inodes && j != i ==> Content(g, j) == Content(f, j)
    {
      hide At, ByteAt;
      forall j | j in f.inodes && j != i ensures FileOk(g, j) && Content(g, j) == Content(f, j) { SameFile(f, g, j); }
    }

    /** itrunc: exactly the inode's own blocks go back to the bitmap, every other file is as it was,
        and no panic is reached. */
    method Itrunc(i: nat) returns (ok: bool)
      requires Valid() && i in inodes
      modifies this`bitmap, this`inodes, this`dinodes, this`logged, this`owner
      ensures ok && Valid()
      ensures inodes == old(inodes)[i := Inode(0, seq(NDIRECT + 1, _ => 0))]
      ensures forall j :: j in old(inodes) && j != i ==> Content(F(), j) == old(Content(F(), j))
      ensures owner == old(owner) - BlocksFrom(old(owner), i, 0) && data == old(data)
      ensures forall b: nat :: b < hi ==>
                (Used(bitmap, b) <==> Used(old(bitmap), b) && b !in BlocksFrom(old(owner), i, 0))
      ensures Journaled(old(Img()), Img())
    {
      hide SlotsOk, BitmapOk, Used, BlocksFrom, Without, At, Dropped, Journaled, Content, FilesOk;
      ghost var f, m := F(), Img();
      ok := DropAllDirect(i);
      ghost var g, n := F(), Img();
      ok := DropIndirect(i);
      JournaledTwice(m, n, Img());
      ghost var h, n' := F(), Img();
      NothingLeft(f, g, h, i);
      inodes := inodes[i := Inode(0, inodes[i].addrs)];
      Resized(h, i, 0);
      BitsGiven(m.bitmap, f, bitmap, owner, i);
      Emptied(f, F(), i);
      Iupdate(i);
      JournaledTwice(m, n', Img());
    }
  }
}
