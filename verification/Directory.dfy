/** Directories of kernel/fs.c: a directory's content is a sequence of 16-byte entries, and dirlookup,
    dirlink and the entry write of unlink implement a finite map from names to inode numbers. */
module Directory {
  import opened Blocks
  import opened InodeSpec
  import opened FileSystem

  const DIRSIZ: nat := 14
  const DIRENT: nat := 16 // sizeof(struct dirent): a ushort and DIRSIZ name bytes

  /** A C string without its terminating NUL. */
  type Name = s: seq<Byte> | forall i :: 0 <= i < |s| ==> s[i] != 0

  /** The part of a name that directories keep and compare. */
  function Cut(name: Name): (n: Name)
    ensures |n| <= DIRSIZ && n <= name
  {
    if |name| <= DIRSIZ then name else name[..DIRSIZ]
  }

  /** The string in a byte field: what precedes its first NUL, or the whole field. */
  function CString(field: seq<Byte>): (n: Name)
    ensures |n| <= |field| && n == field[..|n|] && (|n| < |field| ==> field[|n|] == 0)
  {
    if field == [] || field[0] == 0 then [] else [field[0]] + CString(field[1..])
  }

  lemma {:induction false} CStringUnique(field: seq<Byte>, n: Name)
    requires |n| <= |field| && n == field[..|n|] && (|n| < |field| ==> field[|n|] == 0)
    ensures CString(field) == n
  {
    if n != [] {
      assert field[0] == n[0];
      assert n[1..] == field[1..][..|n| - 1];
      CStringUnique(field[1..], n[1..]);
    }
  }

  function CharAt(s: Name, i: nat): (c: Byte) { if i < |s| then s[i] else 0 }

  /** namecmp: strncmp of a name with the name field of an entry. */
  method Namecmp(s: Name, t: seq<Byte>) returns (d: int)
    requires |t| == DIRSIZ
    ensures d == 0 <==> Cut(s) == CString(t)
  {
    var i := 0;
    while i < DIRSIZ && CharAt(s, i) != 0 && CharAt(s, i) == t[i]
      invariant i <= DIRSIZ && i <= |s| && s[..i] == t[..i]
    {
      i := i + 1;
    }
    if i == DIRSIZ {
      CStringUnique(t, s[..DIRSIZ]);
      return 0;
    }
    d := CharAt(s, i) - t[i];
    if d == 0 {
      CStringUnique(t, s);
    } else {
      Differ(s, t, i);
    }
  }

  lemma Differ(s: Name, t: seq<Byte>, i: nat)
    requires |t| == DIRSIZ && i < DIRSIZ && i <= |s| && s[..i] == t[..i] && CharAt(s, i) != t[i]
    ensures Cut(s) != CString(t)
  {
    var n := CString(t);
    assert |n| < i ==> s[|n|] == s[..i][|n|] == t[..i][|n|];
    assert |n| > i ==> n[i] == t[i];
  }

  /** strncpy into a name field. */
  function Padded(name: Name): (field: seq<Byte>)
    ensures |field| == DIRSIZ && CString(field) == Cut(name)
  {
    var field := Cut(name) + seq(DIRSIZ - |Cut(name)|, _ => 0);
    CStringUnique(field, Cut(name));
    field
  }

  type Entry = e: seq<Byte> | |e| == DIRENT witness seq(DIRENT, _ => 0)

  function Inum(e: Entry): (i: nat) { e[0] as int + 256 * (e[1] as int) }

  function NameOf(e: Entry): (n: Name) { CString(e[2..]) }

  function MakeEntry(inum: nat, name: Name): (e: Entry)
    requires inum < 65536
    ensures Inum(e) == inum && NameOf(e) == Cut(name)
  {
    assert inum % 256 + 256 * (inum / 256) == inum;
    var e: seq<Byte> := [inum % 256, inum / 256] + Padded(name);
    assert e[2..] == Padded(name);
    e
  }

  function ZeroEntry(): (e: Entry)
    ensures Inum(e) == 0
  {
    seq(DIRENT, _ => 0)
  }

  // ------------------------------------------------------------ the directory as a map

  function Slots(c: seq<Byte>): (n: nat) { |c| / DIRENT }

  function SlotAt(c: seq<Byte>, k: nat): (e: Entry)
    requires k < Slots(c)
  {
    c[DIRENT * k..DIRENT * k + DIRENT]
  }

  ghost predicate Live(c: seq<Byte>, k: nat) {
    k < Slots(c) && Inum(SlotAt(c, k)) != 0
  }

  /** Whole entries, and no two live entries with the same name. */
  ghost predicate DirOk(c: seq<Byte>) {
    && |c| % DIRENT == 0
    && forall j: nat, k: nat {:trigger Live(c, j), Live(c, k)} ::
         Live(c, j) && Live(c, k) && NameOf(SlotAt(c, j)) == NameOf(SlotAt(c, k)) ==> j == k
  }

  ghost predicate Names(c: seq<Byte>, n: Name, k: nat) {
    Live(c, k) && NameOf(SlotAt(c, k)) == n
  }

  ghost function DirMap(c: seq<Byte>): (m: map<Name, nat>)
    requires DirOk(c)
  {
    map n | n in NameSet(c) :: BoundTo(c, n)
  }

  ghost function NameSet(c: seq<Byte>): (ns: set<Name>)
    ensures forall n :: n in ns ==> exists k: nat :: Names(c, n, k)
  {
    var ns := set k: nat | k < Slots(c) && Live(c, k) :: NameOf(SlotAt(c, k));
    assert forall n :: n in ns ==> exists k: nat :: k < Slots(c) && Live(c, k) && Names(c, n, k);
    ns
  }

  ghost function BoundTo(c: seq<Byte>, n: Name): (i: nat)
    requires n in NameSet(c)
  {
    var k: nat :| Names(c, n, k);
    Inum(SlotAt(c, k))
  }

  lemma DirMapHas(c: seq<Byte>, n: Name, k: nat)
    requires DirOk(c) && Names(c, n, k)
    ensures n in DirMap(c) && DirMap(c)[n] == Inum(SlotAt(c, k))
  {
    assert k < Slots(c) && Live(c, k) && n in NameSet(c);
  }

  lemma DirMapWitness(c: seq<Byte>, n: Name) returns (k: nat)
    requires DirOk(c) && n in DirMap(c)
    ensures Names(c, n, k)
  {
    assert n in NameSet(c);
    k :| Names(c, n, k);
  }

  /** From c to d, entry k became e, and no other entry changed. */
  ghost predicate SetSlot(c: seq<Byte>, d: seq<Byte>, k: nat, e: Entry) {
    && k <= Slots(c) && |d| % DIRENT == 0 && Slots(d) == (if k < Slots(c) then Slots(c) else k + 1)
    && SlotAt(d, k) == e
    && forall j: nat {:trigger SlotAt(d, j)} :: j < Slots(c) && j != k ==> SlotAt(d, j) == SlotAt(c, j)
  }

  lemma SpliceSlot(c: seq<Byte>, k: nat, e: Entry, d: seq<Byte>)
    requires |c| % DIRENT == 0 && k <= Slots(c)
    requires d == c[..DIRENT * k] + e + if DIRENT * k + DIRENT < |c| then c[DIRENT * k + DIRENT..] else []
    ensures SetSlot(c, d, k, e)
  {
    assert |c| == DIRENT * Slots(c);
    assert |d| == DIRENT * if k < Slots(c) then Slots(c) else k + 1;
    assert SlotAt(d, k) == e;
    forall j: nat | j < Slots(c) && j != k ensures SlotAt(d, j) == SlotAt(c, j) {
      if j < k {
        assert DIRENT * j + DIRENT <= DIRENT * k;
      } else {
        assert DIRENT * k + DIRENT <= DIRENT * j;
      }
    }
  }

  /** Writing a live entry under a new name into a dead slot, or past the end, adds one binding. */
  lemma SlotAdds(c: seq<Byte>, d: seq<Byte>, k: nat, e: Entry)
    requires DirOk(c) && SetSlot(c, d, k, e) && !Live(c, k) && Inum(e) != 0 && NameOf(e) !in DirMap(c)
    ensures DirOk(d) && DirMap(d) == DirMap(c)[NameOf(e) := Inum(e)]
  {
    hide NameOf, Inum, SlotAt, DirMap;
    forall j: nat | j != k ensures Live(d, j) == Live(c, j) { SlotKept(c, d, k, e, j); }
    forall j: nat | Live(c, j) ensures NameOf(SlotAt(c, j)) != NameOf(e) { DirMapHas(c, NameOf(SlotAt(c, j)), j); }
    assert DirOk(d);
    var m := DirMap(c)[NameOf(e) := Inum(e)];
    forall n | n in DirMap(d) ensures n in m && DirMap(d)[n] == m[n] {
      var j := DirMapWitness(d, n);
      DirMapHas(d, n, j);
      if j != k { DirMapHas(c, n, j); }
    }
    forall n | n in m ensures n in DirMap(d) {
      if n == NameOf(e) {
        DirMapHas(d, n, k);
      } else {
        var j := DirMapWitness(c, n);
        DirMapHas(d, n, j);
      }
    }
  }

  lemma SlotKept(c: seq<Byte>, d: seq<Byte>, k: nat, e: Entry, j: nat)
    requires SetSlot(c, d, k, e) && j != k
    ensures Live(d, j) == Live(c, j) && (Live(c, j) ==> SlotAt(d, j) == SlotAt(c, j))
  {
  }

  /** Zeroing a live slot removes exactly its binding. */
  lemma SlotRemoves(c: seq<Byte>, d: seq<Byte>, k: nat)
    requires DirOk(c) && SetSlot(c, d, k, ZeroEntry()) && Live(c, k)
    ensures DirOk(d) && DirMap(d) == DirMap(c) - {NameOf(SlotAt(c, k))}
  {
    hide NameOf, Inum, SlotAt, DirMap, ZeroEntry;
    forall j: nat | j != k ensures Live(d, j) == Live(c, j) { SlotKept(c, d, k, ZeroEntry(), j); }
    assert !Live(d, k);
    assert DirOk(d);
    var n0 := NameOf(SlotAt(c, k));
    var m := DirMap(c) - {n0};
    forall n | n in DirMap(d) ensures n in m && DirMap(d)[n] == m[n] {
      var j := DirMapWitness(d, n);
      DirMapHas(d, n, j);
      DirMapHas(c, n, j);
    }
    forall n | n in m ensures n in DirMap(d) {
      var j := DirMapWitness(c, n);
      DirMapHas(d, n, j);
    }
  }

  // ------------------------------------------------------------ operations on a directory inode

  ghost predicate IsDirectory(f: Files, dp: nat) {
    InodesOk(f) && dp in f.inodes && FileOk(f, dp) && DirOk(Content(f, dp))
  }

  /** Everything but directory dp is as it was. */
  ghost predicate OnlyChanged(f: Files, g: Files, dp: nat) {
    && InodesOk(f) && InodesOk(g) && g.inodes.Keys == f.inodes.Keys
    && forall j :: j in f.inodes && j != dp && FileOk(f, j) ==>
                     g.inodes[j] == f.inodes[j] && FileOk(g, j) && Content(g, j) == Content(f, j)
  }

  /** The other directories are still directories, with the same entries. */
  lemma OtherDirectory(f: Files, g: Files, dp: nat, d: nat)
    requires OnlyChanged(f, g, dp) && IsDirectory(f, d) && d != dp
    ensures IsDirectory(g, d) && DirMap(Content(g, d)) == DirMap(Content(f, d))
  {
    hide DirOk, DirMap, FileOk;
  }

  lemma WroteOnly(fs: Fs, f: Files, g: Files, dp: nat, off: nat, s: seq<Byte>)
    requires InodesOk(f) && dp in f.inodes && FileOk(f, dp) && off <= f.inodes[dp].size && fs.Wrote(f, g, dp, off, s)
    ensures OnlyChanged(f, g, dp)
  {
    hide ByteAt, NoHoles;
    forall j | j in f.inodes && j != dp && FileOk(f, j) ensures FileOk(g, j) && Content(g, j) == Content(f, j) {
      var c, d := Content(f, j), Content(g, j);
      forall k | 0 <= k < |c| ensures c[k] == d[k] {
        assert ByteAt(g, j, k) == ByteAt(f, j, k);
      }
    }
  }

  /** One 16-byte read of a directory. */
  method ReadEntry(fs: Fs, dp: nat, off: nat) returns (e: Entry)
    requires fs.Valid() && IsDirectory(fs.F(), dp) && off < fs.inodes[dp].size && off % DIRENT == 0
    modifies fs`bitmap, fs`data, fs`inodes, fs`logged, fs`owner
    ensures fs.F() == old(fs.F()) && fs.bitmap == old(fs.bitmap) && fs.logged == old(fs.logged)
    ensures off / DIRENT < Slots(Content(fs.F(), dp)) && e == SlotAt(Content(fs.F(), dp), off / DIRENT)
    ensures fs.Valid()
  {
    hide SlotsOk, BitmapOk, FilesOk, At, ByteAt, NoHoles;
    ghost var c := Content(fs.F(), dp);
    assert off == DIRENT * (off / DIRENT) && |c| == DIRENT * Slots(c);
    e := fs.Readi(dp, off, DIRENT);
  }

  /** dirlookup: the inode number bound to a name and the offset of its entry, or no inode. */
  method Dirlookup(fs: Fs, dp: nat, name: Name) returns (inum: nat, off: nat)
    requires fs.Valid() && IsDirectory(fs.F(), dp)
    modifies fs`bitmap, fs`data, fs`inodes, fs`logged, fs`owner
    ensures fs.F() == old(fs.F()) && fs.bitmap == old(fs.bitmap) && fs.logged == old(fs.logged) && fs.Valid()
    ensures var c := Content(fs.F(), dp);
            if Cut(name) in DirMap(c)
            then inum == DirMap(c)[Cut(name)] != 0 && off % DIRENT == 0 && Names(c, Cut(name), off / DIRENT)
            else inum == 0
  {
    hide SlotsOk, BitmapOk, FilesOk, At, ByteAt, NoHoles, DirMap, SlotAt, Inum, NameOf, Slots;
    ghost var f := fs.F();
    ghost var c := Content(f, dp);
    off := 0;
    while off < fs.inodes[dp].size
      invariant off % DIRENT == 0 && fs.F() == f && fs.Valid()
      invariant fs.bitmap == old(fs.bitmap) && fs.logged == old(fs.logged)
      invariant forall k: nat {:trigger Names(c, Cut(name), k)} :: DIRENT * k < off ==> !Names(c, Cut(name), k)
    {
      var e := ReadEntry(fs, dp, off);
      if Inum(e) != 0 {
        var d := Namecmp(name, e[2..]);
        NameField(e);
        if d == 0 {
          DirMapHas(c, Cut(name), off / DIRENT);
          return Inum(e), off;
        }
      }
      NextSlot(off);
      off := off + DIRENT;
    }
    NotNamed(c, Cut(name));
    return 0, off;
  }

  lemma NameField(e: Entry)
    ensures |e[2..]| == DIRSIZ && NameOf(e) == CString(e[2..])
  {
  }

  lemma NextSlot(off: nat)
    requires off % DIRENT == 0
    ensures (off + DIRENT) % DIRENT == 0
    ensures forall k: nat :: DIRENT * k < off + DIRENT ==> DIRENT * k < off || k == off / DIRENT
  {
  }

  lemma NotNamed(c: seq<Byte>, n: Name)
    requires DirOk(c) && forall k: nat {:trigger Names(c, n, k)} :: DIRENT * k < |c| ==> !Names(c, n, k)
    ensures n !in DirMap(c)
  {
    forall k: nat | Names(c, n, k) ensures DIRENT * k < |c| {}
    if n in DirMap(c) { var _ := DirMapWitness(c, n); }
  }

  /** The scan of dirlink: the first dead slot, or the end of the directory. */
  method FreeSlot(fs: Fs, dp: nat) returns (off: nat)
    requires fs.Valid() && IsDirectory(fs.F(), dp)
    modifies fs`bitmap, fs`data, fs`inodes, fs`logged, fs`owner
    ensures fs.F() == old(fs.F()) && fs.bitmap == old(fs.bitmap) && fs.logged == old(fs.logged) && fs.Valid()
    ensures var c := Content(fs.F(), dp);
            && off % DIRENT == 0 && off <= |c| && !Live(c, off / DIRENT)
            && forall k: nat {:trigger Live(c, k)} :: DIRENT * k < off ==> Live(c, k)
  {
    hide SlotsOk, BitmapOk, FilesOk, At, ByteAt, NoHoles, SlotAt, Inum;
    ghost var f := fs.F();
    ghost var c := Content(f, dp);
    off := 0;
    while off < fs.inodes[dp].size
      invariant off % DIRENT == 0 && off <= |c| && fs.F() == f && fs.Valid()
      invariant fs.bitmap == old(fs.bitmap) && fs.logged == old(fs.logged)
      invariant forall k: nat {:trigger Live(c, k)} :: DIRENT * k < off ==> Live(c, k)
    {
      var e := ReadEntry(fs, dp, off);
      if Inum(e) == 0 { return; }
      NextSlot(off);
      off := off + DIRENT;
    }
  }

  /** One 16-byte write of a directory entry: it happens entirely or not at all, and can only fail when
      the entry lies beyond the old end of the directory. */
  method WriteEntry(fs: Fs, dp: nat, off: nat, e: Entry) returns (ok: bool)
    requires fs.Valid() && IsDirectory(fs.F(), dp) && off % DIRENT == 0 && off <= fs.inodes[dp].size
    modifies fs
    ensures fs.Valid() && dp in fs.inodes && FileOk(fs.F(), dp) && OnlyChanged(old(fs.F()), fs.F(), dp)
    ensures ok ==> SetSlot(old(Content(fs.F(), dp)), Content(fs.F(), dp), off / DIRENT, e)
    ensures !ok ==> Content(fs.F(), dp) == old(Content(fs.F(), dp))
    ensures !ok ==> off == old(fs.inodes[dp].size) && (off == MAXBYTES || fs.Full())
  {
    hide SlotsOk, BitmapOk, FilesOk, At, ByteAt, NoHoles, SlotAt, fs.Wrote, DirOk;
    ghost var f := fs.F();
    ghost var c := Content(f, dp);
    DirLength(c, off);
    var tot := fs.Writei(dp, off, e);
    ok := tot == DIRENT;
    if tot != -1 {
      Whole(off, tot);
      WroteOnly(fs, f, fs.F(), dp, off, e[..tot]);
      Spliced(fs, f, fs.F(), dp, off, e[..tot]);
      if ok {
        assert e[..tot] == e;
        SpliceSlot(c, off / DIRENT, e, Content(fs.F(), dp));
      }
    }
  }

  lemma DirLength(c: seq<Byte>, off: nat)
    requires DirOk(c) && off % DIRENT == 0 && off <= |c| <= MAXBYTES
    ensures |c| % DIRENT == 0 && off == DIRENT * (off / DIRENT) && off / DIRENT <= Slots(c)
    ensures off < |c| ==> off + DIRENT <= |c|
    ensures off + DIRENT > MAXBYTES ==> off == MAXBYTES
  {
  }

  /** An aligned entry lies within one block, so a cut write of it writes nothing. */
  lemma Whole(off: nat, tot: nat)
    requires off % DIRENT == 0 && tot <= DIRENT
    requires tot == 0 || tot == DIRENT || (off + tot) % BSIZE == 0
    ensures tot == 0 || tot == DIRENT
  {
    if (off + tot) % BSIZE == 0 { AlignedDown(off + tot); }
  }

  lemma AlignedDown(x: nat)
    requires x % BSIZE == 0
    ensures x % DIRENT == 0
  {
    assert x == DIRENT * (64 * (x / BSIZE));
  }

  lemma Spliced(fs: Fs, f: Files, g: Files, dp: nat, off: nat, s: seq<Byte>)
    requires InodesOk(f) && dp in f.inodes && FileOk(f, dp) && off <= f.inodes[dp].size && fs.Wrote(f, g, dp, off, s)
    ensures InodesOk(g) && dp in g.inodes && FileOk(g, dp)
    ensures var c := Content(f, dp);
            Content(g, dp) == c[..off] + s + if off + |s| < |c| then c[off + |s|..] else []
    ensures s == [] ==> Content(g, dp) == Content(f, dp)
  {
    hide ByteAt, NoHoles;
  }

  /** dirlink: adds one binding, or fails and changes nothing. */
  method Dirlink(fs: Fs, dp: nat, name: Name, inum: nat) returns (r: int)
    requires fs.Valid() && IsDirectory(fs.F(), dp) && 0 < inum < 65536
    modifies fs
    ensures fs.Valid() && IsDirectory(fs.F(), dp) && OnlyChanged(old(fs.F()), fs.F(), dp)
    ensures var d, d' := old(DirMap(Content(fs.F(), dp))), DirMap(Content(fs.F(), dp));
            && (r == 0 || r == -1)
            && (r == 0 ==> Cut(name) !in d && d' == d[Cut(name) := inum])
            && (r == -1 ==> Content(fs.F(), dp) == old(Content(fs.F(), dp)))
    ensures var c := old(Content(fs.F(), dp));
            r == -1 ==> Cut(name) in DirMap(c)
                        || ((forall k: nat :: k < Slots(c) ==> Live(c, k)) && (|c| == MAXBYTES || fs.Full()))
    ensures old(Cut(name) in DirMap(Content(fs.F(), dp))) ==> r == -1
  {
    hide SlotsOk, BitmapOk, FilesOk, At, ByteAt, NoHoles, DirMap, SlotAt, Inum, NameOf, DirOk, SetSlot, Live;
    ghost var f := fs.F();
    ghost var c := Content(f, dp);
    var ip, _ := Dirlookup(fs, dp, name);
    if ip != 0 {
      Untouched(f, dp);
      return -1;
    }
    var off := FreeSlot(fs, dp);
    var e := MakeEntry(inum, name);
    var ok := WriteEntry(fs, dp, off, e);
    if !ok {
      AllLive(c, off);
      return -1;
    }
    SlotAdds(c, Content(fs.F(), dp), off / DIRENT, e);
    return 0;
  }

  lemma Untouched(f: Files, dp: nat)
    requires InodesOk(f)
    ensures OnlyChanged(f, f, dp)
  {
  }

  lemma AllLive(c: seq<Byte>, off: nat)
    requires off == |c| && forall k: nat {:trigger Live(c, k)} :: DIRENT * k < off ==> Live(c, k)
    ensures forall k: nat :: k < Slots(c) ==> Live(c, k)
  {
    forall k: nat | k < Slots(c) ensures Live(c, k) {
      assert DIRENT * k < off;
    }
  }

  /** unlink's removal of an entry found by dirlookup: the write cannot fail. */
  method ClearEntry(fs: Fs, dp: nat, off: nat) returns (ok: bool)
    requires fs.Valid() && IsDirectory(fs.F(), dp) && off % DIRENT == 0 && Live(Content(fs.F(), dp), off / DIRENT)
    modifies fs
    ensures ok && fs.Valid() && IsDirectory(fs.F(), dp) && OnlyChanged(old(fs.F()), fs.F(), dp)
    ensures DirMap(Content(fs.F(), dp))
         == old(DirMap(Content(fs.F(), dp)) - {NameOf(SlotAt(Content(fs.F(), dp), off / DIRENT))})
  {
    hide SlotsOk, BitmapOk, FilesOk, At, ByteAt, NoHoles, DirMap, SlotAt, Inum, NameOf, DirOk, SetSlot;
    ghost var c := Content(fs.F(), dp);
    assert off < |c|;
    ok := WriteEntry(fs, dp, off, ZeroEntry());
    SlotRemoves(c, Content(fs.F(), dp), off / DIRENT);
  }

  /** dirlink, then dirlookup of the same name: the lookup finds what was linked, in a map with that binding
      and the old ones. */
  method LinkThenLookup(fs: Fs, dp: nat, name: Name, inum: nat) returns (r: int, found: nat)
    requires fs.Valid() && IsDirectory(fs.F(), dp) && 0 < inum < 65536
    modifies fs
    ensures fs.Valid() && IsDirectory(fs.F(), dp) && OnlyChanged(old(fs.F()), fs.F(), dp)
    ensures var d, d' := old(DirMap(Content(fs.F(), dp))), DirMap(Content(fs.F(), dp));
            if r == 0 then Cut(name) !in d && d' == d[Cut(name) := inum] && found == inum
            else r == -1 && d' == d && found == if Cut(name) in d then d[Cut(name)] else 0
    ensures var c := old(Content(fs.F(), dp));
            r == -1 ==> Cut(name) in DirMap(c)
                        || ((forall k: nat :: k < Slots(c) ==> Live(c, k)) && (|c| == MAXBYTES || fs.Full()))
  {
    hide SlotsOk, BitmapOk, FilesOk, At, ByteAt, NoHoles, DirMap, SlotAt, Inum, NameOf, DirOk;
    r := Dirlink(fs, dp, name, inum);
    var off;
    found, off := Dirlookup(fs, dp, name);
  }

  /** dirlookup, then the write of unlink over the entry found: the name's binding goes, and only it. */
  method LookupThenUnlink(fs: Fs, dp: nat, name: Name) returns (found: nat)
    requires fs.Valid() && IsDirectory(fs.F(), dp)
    modifies fs
    ensures fs.Valid() && IsDirectory(fs.F(), dp) && OnlyChanged(old(fs.F()), fs.F(), dp)
    ensures var d, d' := old(DirMap(Content(fs.F(), dp))), DirMap(Content(fs.F(), dp));
            && d' == d - {Cut(name)} && (if Cut(name) in d then found == d[Cut(name)] != 0 else found == 0)
  {
    hide SlotsOk, BitmapOk, FilesOk, At, ByteAt, NoHoles, DirMap, SlotAt, Inum, NameOf, DirOk;
    var off;
    Untouched(fs.F(), dp);
    found, off := Dirlookup(fs, dp, name);
    if found != 0 {
      var _ := ClearEntry(fs, dp, off);
    }
  }
}
