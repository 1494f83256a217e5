/** Inode block maps of kernel/fs.c: which block each place of each inode names, who owns every
    block of the data area, and the bytes of a file. */
module InodeSpec {
  import opened Blocks
  import opened Bitmap

  const NDIRECT: nat := 12
  const NINDIRECT: nat := 256
  const MAXFILE: nat := NDIRECT + NINDIRECT

  /** The places of an inode that hold a block number: addrs[0..12], then the indirect block's words. */
  const NSLOTS: nat := NDIRECT + 1 + NINDIRECT

  datatype Inode = Inode(size: nat, addrs: seq<nat>)

  type Store = map<nat, Block>

  datatype Loc = Loc(inum: nat, p: nat)

  /** Block contents, inodes, and for every owned block the one place that names it. */
  datatype Files = Files(data: Store, inodes: map<nat, Inode>, owner: map<nat, Loc>)

  function Slot(ino: Inode, data: Store, p: nat): (a: nat)
    requires |ino.addrs| == NDIRECT + 1 && p < NSLOTS
  {
    if p <= NDIRECT then ino.addrs[p]
    else if ino.addrs[NDIRECT] != 0 && ino.addrs[NDIRECT] in data then Word(data[ino.addrs[NDIRECT]], p - NDIRECT - 1)
    else 0
  }

  /** The place that names the block of file block bn. */
  function Place(bn: nat): (p: nat)
    requires bn < MAXFILE
    ensures p < NSLOTS && p != NDIRECT
  {
    if bn < NDIRECT then bn else bn + 1
  }

  ghost predicate InodesOk(f: Files)
  {
    forall i :: i in f.inodes ==> |f.inodes[i].addrs| == NDIRECT + 1
  }

  ghost function At(f: Files, i: nat, p: nat): (a: nat)
    requires InodesOk(f) && i in f.inodes && p < NSLOTS
  {
    Slot(f.inodes[i], f.data, p)
  }

  /** Every block a place names lies in the data area and is owned by that place alone. */
  ghost predicate SlotsOk(f: Files, lo: nat, hi: nat)
  {
    && 0 < lo && hi <= WORD_LIMIT
    && InodesOk(f)
    && (forall i, p :: i in f.inodes && 0 <= p < NSLOTS && At(f, i, p) != 0 ==>
          lo <= At(f, i, p) < hi && At(f, i, p) in f.owner && f.owner[At(f, i, p)] == Loc(i, p))
    && (forall a :: a in f.owner ==>
          && lo <= a < hi && a in f.data
          && f.owner[a].inum in f.inodes && f.owner[a].p < NSLOTS
          && At(f, f.owner[a].inum, f.owner[a].p) == a)
  }

  /** The bitmap marks exactly the metadata blocks and the owned blocks. */
  ghost predicate BitmapOk(bm: Bits, owner: map<nat, Loc>, lo: nat, hi: nat)
  {
    && hi <= |bm| * BPB
    && forall b: nat :: b < hi ==> (Used(bm, b) <==> b < lo || b in owner)
  }

  // Storing a block number in a place.

  ghost function WithInode(f: Files, i: nat, ino: Inode): (r: Files)
  {
    Files(f.data, f.inodes[i := ino], f.owner)
  }

  /** a[bn] = addr in the indirect block ind. */
  ghost function Indexed(data: Store, ind: nat, j: nat, a: nat): (r: Store)
    requires ind in data && j < NINDIRECT && a < WORD_LIMIT
  {
    data[ind := SetWord(data[ind], j, a)]
  }

  /** A zeroed block a becomes the block of place p of inode i. */
  ghost function Allocated(f: Files, i: nat, p: nat, a: nat): (r: Files)
    requires InodesOk(f) && i in f.inodes && p < NSLOTS && a < WORD_LIMIT
    requires p > NDIRECT ==> f.inodes[i].addrs[NDIRECT] in f.data
  {
    if p <= NDIRECT then
      Files(f.data[a := ZeroBlock()],
            f.inodes[i := Inode(f.inodes[i].size, f.inodes[i].addrs[p := a])],
            f.owner[a := Loc(i, p)])
    else
      Files(Indexed(f.data[a := ZeroBlock()], f.inodes[i].addrs[NDIRECT], p - NDIRECT - 1, a),
            f.inodes,
            f.owner[a := Loc(i, p)])
  }

  ghost predicate CanAllocate(f: Files, lo: nat, hi: nat, i: nat, p: nat, a: nat)
  {
    && SlotsOk(f, lo, hi) && i in f.inodes && p < NSLOTS && At(f, i, p) == 0
    && lo <= a < hi && a !in f.owner
    && (p > NDIRECT ==> At(f, i, NDIRECT) != 0)
  }

  /** Only the named place changes. */
  lemma AllocatedAt(f: Files, lo: nat, hi: nat, i: nat, p: nat, a: nat, j: nat, q: nat)
    requires CanAllocate(f, lo, hi, i, p, a) && j in f.inodes && q < NSLOTS
    ensures InodesOk(Allocated(f, i, p, a))
    ensures At(Allocated(f, i, p, a), j, q) == if i == j && p == q then a else At(f, j, q)
  {
    var r := Allocated(f, i, p, a);
    var ind := At(f, j, NDIRECT);
    hide Word, SetWord;
    if q > NDIRECT {
      if p > NDIRECT {
        var mine := At(f, i, NDIRECT);
        assert mine in f.owner && mine != a;
        if ind == mine {
          assert i == j;
          WordOfSetWord(f.data[mine], p - NDIRECT - 1, a, q - NDIRECT - 1);
        } else if ind != 0 {
          assert ind in f.owner && ind != a;
        }
      } else if ind != 0 {
        assert ind in f.owner && ind != a;
      }
      if i == j && p == NDIRECT { WordOfZeroBlock(q - NDIRECT - 1); }
    }
  }

  lemma AllocatedOk(f: Files, lo: nat, hi: nat, i: nat, p: nat, a: nat)
    requires CanAllocate(f, lo, hi, i, p, a)
    ensures SlotsOk(Allocated(f, i, p, a), lo, hi)
  {
    var r := Allocated(f, i, p, a);
    AllocatedAt(f, lo, hi, i, p, a, i, p);
    forall j, q | j in r.inodes && 0 <= q < NSLOTS && At(r, j, q) != 0
      ensures lo <= At(r, j, q) < hi && At(r, j, q) in r.owner && r.owner[At(r, j, q)] == Loc(j, q)
    {
      AllocatedAt(f, lo, hi, i, p, a, j, q);
    }
    forall b | b in r.owner
      ensures lo <= b < hi && b in r.data && r.owner[b].inum in r.inodes && r.owner[b].p < NSLOTS
              && At(r, r.owner[b].inum, r.owner[b].p) == b
    {
      if b != a { AllocatedAt(f, lo, hi, i, p, a, r.owner[b].inum, r.owner[b].p); }
    }
  }

  lemma MarkedOk(bm: Bits, f: Files, lo: nat, hi: nat, i: nat, p: nat, a: nat)
    requires CanAllocate(f, lo, hi, i, p, a) && BitmapOk(bm, f.owner, lo, hi)
    ensures BitmapOk(Mark(bm, a), Allocated(f, i, p, a).owner, lo, hi)
  {
    hide Used;
    forall b: nat | b < hi ensures Used(Mark(bm, a), b) <==> b < lo || b in Allocated(f, i, p, a).owner {
      MarkBits(bm, a, b);
    }
  }

  /** What bmap may do to the files when asked for place p of inode i, ending with a (0 when out
      of blocks): nothing, one fresh block, or a fresh indirect block and perhaps an entry in it. */
  ghost predicate Grown(f: Files, lo: nat, hi: nat, i: nat, p: nat, a: nat, g: Files)
    requires SlotsOk(f, lo, hi) && i in f.inodes && p < NSLOTS && p != NDIRECT
  {
    if At(f, i, p) != 0 then a == At(f, i, p) && g == f
    else if p < NDIRECT || At(f, i, NDIRECT) != 0 then
      if a == 0 then g == f else CanAllocate(f, lo, hi, i, p, a) && g == Allocated(f, i, p, a)
    else
      (a == 0 && g == f) || exists ind :: GrownBoth(f, lo, hi, i, p, a, g, ind)
  }

  ghost predicate GrownBoth(f: Files, lo: nat, hi: nat, i: nat, p: nat, a: nat, g: Files, ind: nat)
    requires SlotsOk(f, lo, hi) && i in f.inodes && p < NSLOTS
  {
    && CanAllocate(f, lo, hi, i, NDIRECT, ind)
    && var h := Allocated(f, i, NDIRECT, ind);
       if a == 0 then g == h else CanAllocate(h, lo, hi, i, p, a) && g == Allocated(h, i, p, a)
  }

  lemma NoIndirect(f: Files, lo: nat, hi: nat, i: nat, p: nat)
    requires SlotsOk(f, lo, hi) && i in f.inodes && NDIRECT < p < NSLOTS && At(f, i, NDIRECT) == 0
    ensures At(f, i, p) == 0 && Grown(f, lo, hi, i, p, 0, f)
  {
  }

  lemma HasIndirect(f: Files, lo: nat, hi: nat, i: nat, p: nat)
    requires SlotsOk(f, lo, hi) && i in f.inodes && NDIRECT < p < NSLOTS
    ensures At(f, i, p) != 0 ==> At(f, i, NDIRECT) != 0
  {
  }

  /** The two stages of an indirect lookup, the indirect block and then its entry, are one bmap. */
  lemma GrownInTwoStages(f: Files, lo: nat, hi: nat, i: nat, p: nat, ind: nat, h: Files, a: nat, g: Files)
    requires SlotsOk(f, lo, hi) && i in f.inodes && NDIRECT < p < NSLOTS && ind != 0
    requires (h == f && At(f, i, NDIRECT) == ind)
             || (CanAllocate(f, lo, hi, i, NDIRECT, ind) && h == Allocated(f, i, NDIRECT, ind))
    requires SlotsOk(h, lo, hi)
    requires i in h.inodes && (if At(h, i, p) != 0 || a == 0 then a == At(h, i, p) && g == h
                               else CanAllocate(h, lo, hi, i, p, a) && g == Allocated(h, i, p, a))
    ensures Grown(f, lo, hi, i, p, a, g) && At(f, i, p) == At(h, i, p)
    ensures SlotsOk(g, lo, hi) && i in g.inodes && At(g, i, NDIRECT) == ind
  {
    if h != f {
      AllocatedAt(f, lo, hi, i, NDIRECT, ind, i, p);
      AllocatedAt(f, lo, hi, i, NDIRECT, ind, i, NDIRECT);
    }
    if g != h {
      AllocatedAt(h, lo, hi, i, p, a, i, NDIRECT);
      AllocatedOk(h, lo, hi, i, p, a);
    }
    if h != f { assert GrownBoth(f, lo, hi, i, p, a, g, ind); }
  }

  /** Blocks that hold file bytes (not block numbers) keep their contents when a block is added. */
  ghost predicate BytesKept(f: Files, g: Files)
  {
    forall b :: b in f.owner && f.owner[b].p != NDIRECT ==>
      b in g.owner && g.owner[b] == f.owner[b] && b in f.data && b in g.data && g.data[b] == f.data[b]
  }

  /** No place changes, except that i's place p and its indirect block may go from none to one. */
  ghost predicate PlacesKept(f: Files, g: Files, i: nat, p: nat)
    requires InodesOk(f) && InodesOk(g)
  {
    && g.inodes.Keys == f.inodes.Keys
    && (forall j :: j in f.inodes ==> g.inodes[j].size == f.inodes[j].size)
    && (forall j, q :: j in f.inodes && 0 <= q < NSLOTS && !(j == i && (q == p || q == NDIRECT)) ==>
          At(g, j, q) == At(f, j, q))
    && (forall q :: q in {p, NDIRECT} && i in f.inodes && 0 <= q < NSLOTS && At(f, i, q) != 0 ==>
          At(g, i, q) == At(f, i, q))
  }

  lemma AllocatedBytes(f: Files, lo: nat, hi: nat, i: nat, p: nat, a: nat)
    requires CanAllocate(f, lo, hi, i, p, a)
    ensures BytesKept(f, Allocated(f, i, p, a))
  {
    hide Word, SetWord;
    assert At(f, i, NDIRECT) == f.inodes[i].addrs[NDIRECT];
  }

  lemma AllocatedKeeps(f: Files, lo: nat, hi: nat, i: nat, p: nat, a: nat)
    requires CanAllocate(f, lo, hi, i, p, a)
    ensures SlotsOk(Allocated(f, i, p, a), lo, hi)
    ensures BytesKept(f, Allocated(f, i, p, a)) && PlacesKept(f, Allocated(f, i, p, a), i, p)
  {
    var g := Allocated(f, i, p, a);
    AllocatedOk(f, lo, hi, i, p, a);
    AllocatedBytes(f, lo, hi, i, p, a);
    hide BytesKept, At, Indexed;
    forall j, q | j in f.inodes && 0 <= q < NSLOTS && !(j == i && (q == p || q == NDIRECT))
      ensures At(g, j, q) == At(f, j, q)
    {
      AllocatedAt(f, lo, hi, i, p, a, j, q);
    }
    AllocatedAt(f, lo, hi, i, p, a, i, NDIRECT);
    AllocatedAt(f, lo, hi, i, p, a, i, p);
  }

  /** bmap keeps the block map consistent, every other place, and the bytes of every file. */
  lemma GrownKeeps(f: Files, lo: nat, hi: nat, i: nat, p: nat, a: nat, g: Files)
    requires SlotsOk(f, lo, hi) && i in f.inodes && p < NSLOTS && p != NDIRECT && Grown(f, lo, hi, i, p, a, g)
    ensures SlotsOk(g, lo, hi) && BytesKept(f, g) && PlacesKept(f, g, i, p)
    ensures At(g, i, p) == a
    ensures At(f, i, p) == 0 && a != 0 ==> a !in f.owner && a in g.data && g.data[a] == ZeroBlock()
  {
    if g != f {
      if p < NDIRECT || At(f, i, NDIRECT) != 0 {
        AllocatedKeeps(f, lo, hi, i, p, a);
        AllocatedAt(f, lo, hi, i, p, a, i, p);
      } else {
        var ind :| GrownBoth(f, lo, hi, i, p, a, g, ind);
        var h := Allocated(f, i, NDIRECT, ind);
        AllocatedKeeps(f, lo, hi, i, NDIRECT, ind);
        AllocatedAt(f, lo, hi, i, NDIRECT, ind, i, p);
        AllocatedAt(f, lo, hi, i, NDIRECT, ind, i, NDIRECT);
        if a != 0 {
          AllocatedKeeps(h, lo, hi, i, p, a);
          AllocatedAt(h, lo, hi, i, p, a, i, p);
          KeptTwice(f, h, g, i, p);
        }
      }
    }
  }

  lemma KeptTwice(f: Files, h: Files, g: Files, i: nat, p: nat)
    requires InodesOk(f) && InodesOk(h) && InodesOk(g) && p < NSLOTS
    requires BytesKept(f, h) && BytesKept(h, g) && PlacesKept(f, h, i, NDIRECT) && PlacesKept(h, g, i, p)
    ensures BytesKept(f, g) && PlacesKept(f, g, i, p)
  {
  }

  // The bytes of files.

  const MAXBYTES: nat := MAXFILE * BSIZE

  /** Byte k of inode i; a place without a block reads as zero. */
  ghost function ByteAt(f: Files, i: nat, k: nat): (c: Byte)
    requires InodesOk(f) && i in f.inodes && k < MAXBYTES
  {
    var a := At(f, i, Place(k / BSIZE));
    if a != 0 && a in f.data then f.data[a].bytes[k % BSIZE] else 0
  }

  ghost predicate NoHoles(f: Files, i: nat, size: nat)
    requires InodesOk(f) && i in f.inodes
  {
    forall bn: nat :: bn < MAXFILE && bn * BSIZE < size ==> At(f, i, Place(bn)) != 0
  }

  /** A file without holes: every block below its size is there. */
  ghost predicate FileOk(f: Files, i: nat)
    requires InodesOk(f) && i in f.inodes
  {
    f.inodes[i].size <= MAXBYTES && NoHoles(f, i, f.inodes[i].size)
  }

  ghost predicate FilesOk(f: Files)
    requires InodesOk(f)
  {
    forall i :: i in f.inodes ==> FileOk(f, i)
  }

  /** The file as a byte sequence. */
  ghost function Content(f: Files, i: nat): (c: seq<Byte>)
    requires InodesOk(f) && i in f.inodes && f.inodes[i].size <= MAXBYTES
    ensures |c| == f.inodes[i].size && forall k :: 0 <= k < |c| ==> c[k] == ByteAt(f, i, k)
  {
    ContentUpTo(f, i, f.inodes[i].size)
  }

  ghost function ContentUpTo(f: Files, i: nat, n: nat): (c: seq<Byte>)
    requires InodesOk(f) && i in f.inodes && n <= MAXBYTES
    ensures |c| == n && forall k :: 0 <= k < n ==> c[k] == ByteAt(f, i, k)
  {
    if n == 0 then [] else ContentUpTo(f, i, n - 1) + [ByteAt(f, i, n - 1)]
  }

  /** Allocating a block, by bmap, changes no byte of any file. */
  lemma GrownBytes(f: Files, lo: nat, hi: nat, i: nat, p: nat, a: nat, g: Files, j: nat, k: nat)
    requires SlotsOk(f, lo, hi) && i in f.inodes && p < NSLOTS && p != NDIRECT && Grown(f, lo, hi, i, p, a, g)
    requires j in f.inodes && k < MAXBYTES
    ensures InodesOk(g) && j in g.inodes && ByteAt(g, j, k) == ByteAt(f, j, k)
  {
    GrownKeeps(f, lo, hi, i, p, a, g);
    var q := Place(k / BSIZE);
    hide Grown;
    if j == i && q == p && At(f, i, p) == 0 {
      assert a == 0 || g.data[a].bytes[k % BSIZE] == 0;
    } else {
      assert At(g, j, q) == At(f, j, q);
    }
  }

  /** The block with s stored from byte o on. */
  function Patched(b: Block, o: nat, s: seq<Byte>): (r: Block)
    requires o + |s| <= BSIZE
    ensures forall x :: 0 <= x < BSIZE ==> r.bytes[x] == if o <= x < o + |s| then s[x - o] else b.bytes[x]
  {
    Block(b.bytes[..o] + s + b.bytes[o + |s|..])
  }

  ghost function Stored(f: Files, a: nat, o: nat, s: seq<Byte>): (g: Files)
    requires a in f.data && o + |s| <= BSIZE
  {
    Files(f.data[a := Patched(f.data[a], o, s)], f.inodes, f.owner)
  }

  /** Storing into a block that holds bytes changes no block number anywhere. */
  lemma StoredAt(f: Files, lo: nat, hi: nat, a: nat, o: nat, s: seq<Byte>, j: nat, q: nat)
    requires SlotsOk(f, lo, hi) && a in f.owner && f.owner[a].p != NDIRECT && o + |s| <= BSIZE
    requires j in f.inodes && q < NSLOTS
    ensures At(Stored(f, a, o, s), j, q) == At(f, j, q)
  {
    hide Word;
    if q > NDIRECT && At(f, j, NDIRECT) != 0 {
      assert At(f, j, NDIRECT) in f.owner && f.owner[At(f, j, NDIRECT)].p == NDIRECT;
    }
  }

  lemma StoredOk(f: Files, lo: nat, hi: nat, a: nat, o: nat, s: seq<Byte>)
    requires SlotsOk(f, lo, hi) && a in f.owner && f.owner[a].p != NDIRECT && o + |s| <= BSIZE
    ensures SlotsOk(Stored(f, a, o, s), lo, hi)
  {
    var g := Stored(f, a, o, s);
    forall j, q | j in f.inodes && 0 <= q < NSLOTS ensures At(g, j, q) == At(f, j, q) {
      StoredAt(f, lo, hi, a, o, s, j, q);
    }
    hide At;
  }

  /** A store through place p of inode i changes those bytes of i and nothing else. */
  lemma StoredBytes(f: Files, lo: nat, hi: nat, i: nat, bn: nat, o: nat, s: seq<Byte>, j: nat, k: nat)
    requires SlotsOk(f, lo, hi) && i in f.inodes && bn < MAXFILE && At(f, i, Place(bn)) != 0 && o + |s| <= BSIZE
    requires j in f.inodes && k < MAXBYTES
    ensures var g := Stored(f, At(f, i, Place(bn)), o, s);
            InodesOk(g) && ByteAt(g, j, k)
              == if j == i && bn * BSIZE + o <= k < bn * BSIZE + o + |s| then s[k - bn * BSIZE - o] else ByteAt(f, j, k)
  {
    var a, q := At(f, i, Place(bn)), Place(k / BSIZE);
    assert a in f.owner && f.owner[a] == Loc(i, Place(bn));
    StoredAt(f, lo, hi, a, o, s, j, q);
    var b := At(f, j, q);
    if b == a {
      assert j == i && k / BSIZE == bn;
    } else if j == i {
      assert k / BSIZE != bn;
    }
    assert k == k / BSIZE * BSIZE + k % BSIZE;
  }

  // Giving blocks back.

  /** The blocks owned by places from p on of inode i. */
  ghost function BlocksFrom(owner: map<nat, Loc>, i: nat, p: nat): (r: set<nat>)
  {
    set a | a in owner && owner[a].inum == i && owner[a].p >= p
  }

  /** addrs[p] = 0; for p == NDIRECT the indirect block's entries go with it. */
  ghost function Dropped(f: Files, i: nat, p: nat): (g: Files)
    requires InodesOk(f) && i in f.inodes && p <= NDIRECT
  {
    Files(f.data,
          f.inodes[i := Inode(f.inodes[i].size, f.inodes[i].addrs[p := 0])],
          f.owner - if p == NDIRECT then BlocksFrom(f.owner, i, NDIRECT) else {f.inodes[i].addrs[p]})
  }

  lemma DroppedAt(f: Files, i: nat, p: nat, j: nat, q: nat)
    requires InodesOk(f) && i in f.inodes && p <= NDIRECT && j in f.inodes && q < NSLOTS
    ensures InodesOk(Dropped(f, i, p))
    ensures At(Dropped(f, i, p), j, q) == if j == i && (q == p || (p == NDIRECT && q > NDIRECT)) then 0 else At(f, j, q)
  {
    hide Word;
  }

  /** Dropping a place leaves every other place, and exactly the other blocks owned. */
  lemma DroppedOk(f: Files, lo: nat, hi: nat, i: nat, p: nat)
    requires SlotsOk(f, lo, hi) && i in f.inodes && p <= NDIRECT
    ensures SlotsOk(Dropped(f, i, p), lo, hi)
  {
    var g := Dropped(f, i, p);
    DroppedAt(f, i, p, i, p);
    assert At(f, i, p) == f.inodes[i].addrs[p];
    forall j, q | j in g.inodes && 0 <= q < NSLOTS && At(g, j, q) != 0
      ensures lo <= At(g, j, q) < hi && At(g, j, q) in g.owner && g.owner[At(g, j, q)] == Loc(j, q)
    {
      DroppedAt(f, i, p, j, q);
    }
    forall a | a in g.owner
      ensures lo <= a < hi && a in g.data && g.owner[a].inum in g.inodes && g.owner[a].p < NSLOTS
              && At(g, g.owner[a].inum, g.owner[a].p) == a
    {
      DroppedAt(f, i, p, g.owner[a].inum, g.owner[a].p);
    }
  }

  lemma ClearedOk(bm: Bits, owner: map<nat, Loc>, lo: nat, hi: nat, a: nat)
    requires BitmapOk(bm, owner, lo, hi) && lo <= a < hi && a in owner
    ensures Used(bm, a) && BitmapOk(Clear(bm, a), owner - {a}, lo, hi)
  {
    hide Used;
    forall b: nat | b < hi ensures Used(Clear(bm, a), b) <==> b < lo || b in owner - {a} {
      ClearBits(bm, a, b);
    }
  }

  /** The blocks named by the first n entries of i's indirect block. */
  ghost function Entries(f: Files, i: nat, n: nat): (r: set<nat>)
    requires InodesOk(f) && i in f.inodes && n <= NINDIRECT
  {
    if n == 0 then {}
    else Entries(f, i, n - 1) + if At(f, i, NDIRECT + n) != 0 then {At(f, i, NDIRECT + n)} else {}
  }

  lemma {:induction false} EntriesOwned(f: Files, lo: nat, hi: nat, i: nat, n: nat)
    requires SlotsOk(f, lo, hi) && i in f.inodes && n <= NINDIRECT
    ensures forall a :: a in Entries(f, i, n) <==> a in f.owner && f.owner[a].inum == i
                                                   && NDIRECT < f.owner[a].p <= NDIRECT + n
  {
    if n > 0 {
      EntriesOwned(f, lo, hi, i, n - 1);
      var e := At(f, i, NDIRECT + n);
      hide At;
      assert e != 0 ==> f.owner[e] == Loc(i, NDIRECT + n);
    }
  }

  /** Freeing the next entry: it is still marked, and then the first n + 1 entries are free. */
  lemma NextEntry(bm: Bits, f: Files, lo: nat, hi: nat, i: nat, n: nat)
    requires SlotsOk(f, lo, hi) && i in f.inodes && n < NINDIRECT
    requires BitmapOk(bm, f.owner - Entries(f, i, n), lo, hi)
    ensures var a := At(f, i, NDIRECT + n + 1);
            if a == 0 then BitmapOk(bm, f.owner - Entries(f, i, n + 1), lo, hi)
            else lo <= a < hi && hi <= |bm| * BPB && Used(bm, a)
                 && BitmapOk(Clear(bm, a), f.owner - Entries(f, i, n + 1), lo, hi)
  {
    var a := At(f, i, NDIRECT + n + 1);
    EntriesOwned(f, lo, hi, i, n);
    if a != 0 {
      ClearedOk(bm, f.owner - Entries(f, i, n), lo, hi, a);
      assert f.owner - Entries(f, i, n) - {a} == f.owner - Entries(f, i, n + 1);
    } else {
      assert Entries(f, i, n + 1) == Entries(f, i, n);
    }
  }

  /** Freeing the indirect block itself after all its entries. */
  lemma LastOfIndirect(bm: Bits, f: Files, lo: nat, hi: nat, i: nat)
    requires SlotsOk(f, lo, hi) && i in f.inodes && At(f, i, NDIRECT) != 0
    requires BitmapOk(bm, f.owner - Entries(f, i, NINDIRECT), lo, hi)
    ensures var a := At(f, i, NDIRECT);
            lo <= a < hi && hi <= |bm| * BPB && Used(bm, a)
            && BitmapOk(Clear(bm, a), f.owner - BlocksFrom(f.owner, i, NDIRECT), lo, hi)
  {
    var a := At(f, i, NDIRECT);
    IndirectBlocks(f, lo, hi, i);
    ClearedOk(bm, f.owner - Entries(f, i, NINDIRECT), lo, hi, a);
    assert f.owner - Entries(f, i, NINDIRECT) - {a} == f.owner - (Entries(f, i, NINDIRECT) + {a});
  }

  lemma IndirectBlocks(f: Files, lo: nat, hi: nat, i: nat)
    requires SlotsOk(f, lo, hi) && i in f.inodes && At(f, i, NDIRECT) != 0
    ensures BlocksFrom(f.owner, i, NDIRECT) == Entries(f, i, NINDIRECT) + {At(f, i, NDIRECT)}
    ensures At(f, i, NDIRECT) !in Entries(f, i, NINDIRECT)
  {
    EntriesOwned(f, lo, hi, i, NINDIRECT);
    hide At, Entries;
    forall a | a in BlocksFrom(f.owner, i, NDIRECT) ensures a in Entries(f, i, NINDIRECT) + {At(f, i, NDIRECT)} {
      assert At(f, f.owner[a].inum, f.owner[a].p) == a;
    }
  }
}
