/** Path names of kernel/fs.c: skipelem cuts a path into its elements, and namex walks them from the root
    or the current directory, holding exactly one inode reference at a time. */
module Paths {
  import opened Options
  import opened Blocks
  import opened InodeSpec
  import opened FileSystem
  import opened Directory

  const SLASH: Byte := 47
  const ROOTINO: nat := 1

  // ------------------------------------------------------------ the elements of a path

  /** A path cut at every slash, empty pieces included. */
  function Split(p: Name): (ss: seq<Name>)
    ensures |ss| >= 1
  {
    if p == [] then [[]]
    else if p[0] == SLASH then [[]] + Split(p[1..])
    else var r := Split(p[1..]); [[p[0]] + r[0]] + r[1..]
  }

  function NonEmpty(ss: seq<Name>): (es: seq<Name>) {
    if ss == [] then [] else if ss[0] == [] then NonEmpty(ss[1..]) else [ss[0]] + NonEmpty(ss[1..])
  }

  /** The non-empty slash-separated elements. */
  function Elements(p: Name): (es: seq<Name>) { NonEmpty(Split(p)) }

  ghost predicate NoSlash(w: Name) { forall i :: 0 <= i < |w| ==> w[i] != SLASH }

  lemma SlashSkipped(p: Name)
    requires p != [] && p[0] == SLASH
    ensures Elements(p) == Elements(p[1..])
  {
    assert Split(p)[1..] == Split(p[1..]);
  }

  lemma {:induction false} SplitWord(w: Name, rest: Name)
    requires NoSlash(w) && (rest == [] || rest[0] == SLASH)
    ensures Split(w + rest)[0] == w + Split(rest)[0] && Split(w + rest)[1..] == Split(rest)[1..]
  {
    if w == [] {
      assert w + rest == rest;
    } else {
      assert (w + rest)[1..] == w[1..] + rest;
      SplitWord(w[1..], rest);
      assert [w[0]] + (w[1..] + Split(rest)[0]) == w + Split(rest)[0];
    }
  }

  lemma WordFirst(w: Name, rest: Name)
    requires w != [] && NoSlash(w) && (rest == [] || rest[0] == SLASH)
    ensures Elements(w + rest) == [w] + Elements(rest)
  {
    SplitWord(w, rest);
    assert Split(rest)[0] == [];
    assert w + Split(rest)[0] == w;
  }

  /** Without leading slashes, only the empty path has no element. */
  lemma {:induction false} SomeElement(p: Name)
    requires p != [] && p[0] != SLASH
    ensures Elements(p) != []
  {
  }

  lemma SlashAt(path: Name, p: nat)
    requires p < |path| && path[p] == SLASH
    ensures Elements(path[p..]) == Elements(path[p + 1..])
  {
    SlashSkipped(path[p..]);
    assert path[p..][1..] == path[p + 1..];
  }

  /** The loop that steps over slashes. */
  method SkipSlashes(path: Name, from: nat) returns (p: nat)
    requires from <= |path|
    ensures from <= p <= |path| && Elements(path[p..]) == Elements(path[from..])
    ensures p < |path| ==> path[p] != SLASH
  {
    hide Elements;
    p := from;
    while CharAt(path, p) == SLASH
      invariant from <= p <= |path| && Elements(path[p..]) == Elements(path[from..])
      decreases |path| - p
    {
      SlashAt(path, p);
      p := p + 1;
    }
  }

  /** The loop that steps over one element. */
  method SkipWord(path: Name, s: nat) returns (p: nat)
    requires s < |path| && path[s] != SLASH
    ensures s < p <= |path| && (p < |path| ==> path[p] == SLASH)
    ensures forall i :: s <= i < p ==> path[i] != SLASH
  {
    p := s;
    while CharAt(path, p) != SLASH && CharAt(path, p) != 0
      invariant s <= p <= |path|
      invariant forall i :: s <= i < p ==> path[i] != SLASH
      decreases |path| - p
    {
      p := p + 1;
    }
  }

  lemma WordAt(path: Name, s: nat, p: nat)
    requires s < p <= |path| && (p < |path| ==> path[p] == SLASH)
    requires forall i :: s <= i < p ==> path[i] != SLASH
    ensures Elements(path[s..]) == [path[s..p]] + Elements(path[p..])
  {
    assert path[s..] == path[s..p] + path[p..];
    WordFirst(path[s..p], path[p..]);
  }

  /** Where the next element, e, and the rest after it are. */
  ghost predicate Cuts(path: Name, from: nat, next: Option<nat>, name: Name) {
    from <= |path| &&
    var es := Elements(path[from..]);
    && (next == None <==> es == [])
    && (next.Some? ==>
          && from < next.value <= |path| && name == Cut(es[0]) && Elements(path[next.value..]) == es[1..]
          && (next.value == |path| <==> es[1..] == []))
  }

  /** skipelem: the next element, cut to DIRSIZ bytes, and where the one after it starts. */
  method Skipelem(path: Name, from: nat) returns (next: Option<nat>, name: Name)
    requires from <= |path|
    ensures Cuts(path, from, next, name)
  {
    hide Elements;
    var s := SkipSlashes(path, from);
    if CharAt(path, s) == 0 {
      NoElement(path, s);
      return None, [];
    }
    var p := SkipWord(path, s);
    WordAt(path, s, p);
    var len := p - s;
    name := if len >= DIRSIZ then path[s..s + DIRSIZ] else path[s..p];
    assert name == Cut(path[s..p]);
    var q := SkipSlashes(path, p);
    if q < |path| { SomeElement(path[q..]); } else { NoElement(path, q); }
    next := Some(q);
  }

  lemma NoElement(path: Name, p: nat)
    requires p == |path|
    ensures Elements(path[p..]) == []
  {
  }

  // ------------------------------------------------------------ the tree of directories

  /** Each directory's map from names to inode numbers. */
  type Graph = map<nat, map<Name, nat>>

  ghost predicate Directories(f: Files, dirs: set<nat>) {
    InodesOk(f) && forall d :: d in dirs ==> IsDirectory(f, d)
  }

  ghost function GraphOf(f: Files, dirs: set<nat>): (g: Graph)
    requires Directories(f, dirs)
  {
    map d | d in dirs :: DirMap(Content(f, d))
  }

  /** The inode reached from i by following the elements es. */
  ghost function Follow(g: Graph, i: nat, es: seq<Name>): (r: Option<nat>)
    decreases |es|
  {
    if es == [] then Some(i)
    else if i !in g || Cut(es[0]) !in g[i] then None
    else Follow(g, g[i][Cut(es[0])], es[1..])
  }

  /** nameiparent follows all elements but the last, and what it reaches must be a directory. */
  ghost function FollowParent(g: Graph, i: nat, es: seq<Name>): (r: Option<nat>) {
    if es == [] then None
    else match Follow(g, i, es[..|es| - 1])
         case Some(d) => if d in g then Some(d) else None
         case None => None
  }

  /** One step of either walk. */
  lemma FollowStep(g: Graph, i: nat, es: seq<Name>)
    requires es != []
    ensures i !in g ==> Follow(g, i, es) == FollowParent(g, i, es) == None
    ensures |es| == 1 && i in g ==> FollowParent(g, i, es) == Some(i)
    ensures i in g && Cut(es[0]) !in g[i] ==>
              Follow(g, i, es) == None && (|es| > 1 ==> FollowParent(g, i, es) == None)
    ensures i in g && Cut(es[0]) in g[i] ==>
              var j := g[i][Cut(es[0])];
              && Follow(g, i, es) == Follow(g, j, es[1..])
              && (|es| > 1 ==> FollowParent(g, i, es) == FollowParent(g, j, es[1..]))
  {
    if |es| > 1 {
      var init := es[..|es| - 1];
      assert init[0] == es[0] && init[1..] == es[1..][..|es| - 2];
    }
  }

  /** What namex has to return, from inode i with the elements es still to go. */
  ghost function Walk(g: Graph, i: nat, es: seq<Name>, parent: bool): (r: Option<nat>) {
    if parent then FollowParent(g, i, es) else Follow(g, i, es)
  }

  /** Every entry names one of the inodes. */
  ghost predicate Closed(g: Graph, inums: set<nat>) {
    forall d, n {:trigger g[d][n]} :: d in g && n in g[d] ==> g[d][n] in inums
  }

  /** A file that cannot grow. */
  ghost predicate AtLimit(f: Files, d: nat) { d in f.inodes && f.inodes[d].size == MAXBYTES }

  lemma ParentIs(g: Graph, i: nat, es: seq<Name>)
    requires FollowParent(g, i, es).Some?
    ensures var d := FollowParent(g, i, es).value;
            es != [] && d in g && (Follow(g, i, es).Some? <==> Cut(es[|es| - 1]) in g[d])
  {
    FollowLast(g, i, es, FollowParent(g, i, es).value);
  }

  /** h has every binding of g. */
  ghost predicate Extends(g: Graph, h: Graph) {
    forall d, n {:trigger g[d][n]} :: d in g && n in g[d] ==> d in h && n in h[d] && h[d][n] == g[d][n]
  }

  /** A path that leads somewhere still leads there when bindings are added. */
  lemma {:induction false} FollowExtends(g: Graph, h: Graph, i: nat, es: seq<Name>)
    requires Extends(g, h) && Follow(g, i, es).Some?
    ensures Follow(h, i, es) == Follow(g, i, es)
    decreases |es|
  {
    if es != [] { FollowExtends(g, h, g[i][Cut(es[0])], es[1..]); }
  }

  /** A walk is a walk to the parent and one more lookup. */
  lemma {:induction false} FollowLast(g: Graph, i: nat, es: seq<Name>, d: nat)
    requires es != [] && Follow(g, i, es[..|es| - 1]) == Some(d)
    ensures var n := Cut(es[|es| - 1]);
            Follow(g, i, es) == if d in g && n in g[d] then Some(g[d][n]) else None
    decreases |es|
  {
    if |es| > 1 {
      var init := es[..|es| - 1];
      assert init[0] == es[0] && init[1..] == es[1..][..|es| - 2];
      FollowLast(g, g[i][Cut(es[0])], es[1..], d);
    } else {
      assert es[1..] == [];
    }
  }

  ghost function Bind(m: map<Name, nat>, n: Name, inum: nat): (r: map<Name, nat>) { m[n := inum] }

  /** h is g with the last element of es, a name the directory before it did not have, bound to inum. */
  ghost predicate LinkedIn(g: Graph, h: Graph, i: nat, es: seq<Name>, inum: nat) {
    es != [] &&
    match FollowParent(g, i, es)
    case None => false
    case Some(d) =>
      var n := Cut(es[|es| - 1]);
      d in g && n !in g[d] && h == g[d := Bind(g[d], n, inum)]
  }

  /** A new link: its path led nowhere and now leads to inum, and every path that led somewhere leads there
      still. */
  lemma LinkResolves(g: Graph, h: Graph, i: nat, es: seq<Name>, inum: nat)
    requires LinkedIn(g, h, i, es, inum)
    ensures Follow(g, i, es) == None && Follow(h, i, es) == Some(inum)
    ensures forall j, fs :: Follow(g, j, fs).Some? ==> Follow(h, j, fs) == Follow(g, j, fs)
  {
    var d := FollowParent(g, i, es).value;
    FollowLast(g, i, es, d);
    FollowExtends(g, h, i, es[..|es| - 1]);
    FollowLast(h, i, es, d);
    forall j, fs | Follow(g, j, fs).Some? ensures Follow(h, j, fs) == Follow(g, j, fs) { FollowExtends(g, h, j, fs); }
  }

  lemma BindCloses(g: Graph, h: Graph, d: nat, n: Name, inum: nat, inums: set<nat>)
    requires d in g && h == g[d := Bind(g[d], n, inum)] && Closed(g, inums) && inum in inums
    ensures Closed(h, inums)
  {
  }

  lemma SameInums(f: Files, f': Files, d: nat)
    requires OnlyChanged(f, f', d)
    ensures f'.inodes.Keys == f.inodes.Keys
  {
  }

  /** dirlink in one directory changes that directory's map and no other. */
  lemma GraphLinked(f: Files, f': Files, dirs: set<nat>, d: nat)
    requires Directories(f, dirs) && d in dirs && IsDirectory(f', d) && OnlyChanged(f, f', d)
    ensures Directories(f', dirs) && GraphOf(f', dirs) == GraphOf(f, dirs)[d := DirMap(Content(f', d))]
  {
    hide OnlyChanged, DirMap, DirOk, FileOk;
    forall e | e in dirs && e != d ensures IsDirectory(f', e) && DirMap(Content(f', e)) == DirMap(Content(f, e)) {
      OtherDirectory(f, f', d, e);
    }
  }

  ghost predicate SameLast(es: seq<Name>, all: seq<Name>) {
    es != [] ==> all != [] && all[|all| - 1] == es[|es| - 1]
  }

  /** In-memory inode references over a file system whose directories are dirs. */
  class Walker {
    const fs: Fs
    const dirs: set<nat>
    const cwd: nat
    var refs: map<nat, nat>

    constructor (fs: Fs, dirs: set<nat>, cwd: nat)
      ensures this.fs == fs && this.dirs == dirs && this.cwd == cwd
      ensures forall i :: i in refs <==> i in fs.inodes
      ensures forall i :: i in refs ==> refs[i] == 0
    {
      this.fs, this.dirs, this.cwd := fs, dirs, cwd;
      refs := map i | i in fs.inodes :: 0;
    }

    ghost function G(): (g: Graph)
      reads fs
      requires Directories(fs.F(), dirs)
    {
      GraphOf(fs.F(), dirs)
    }

    ghost predicate TreeOk()
      reads fs
    {
      fs.Valid() && Directories(fs.F(), dirs) && Closed(G(), fs.inodes.Keys) && ROOTINO in fs.inodes && cwd in fs.inodes
    }

    ghost predicate Valid()
      reads this, fs
    {
      TreeOk() && Refs(fs.inodes)
    }

    ghost predicate Refs(inodes: map<nat, Inode>)
      reads this
    {
      forall i :: i in inodes ==> i in refs
    }

    /** The references are those of r plus one for i, if i is an inode. */
    ghost predicate Holds(r: map<nat, nat>, i: Option<nat>)
      reads this
    {
      && (forall j :: j in refs <==> j in r)
      && forall j :: j in r ==> refs[j] == r[j] + if i == Some(j) then 1 else 0
    }

    /** iget and idup. */
    method Iget(i: nat)
      requires i in refs
      modifies this
      ensures refs == old(refs)[i := old(refs[i]) + 1]
    {
      refs := refs[i := refs[i] + 1];
    }

    /** iput of a reference that is not the last one of an unlinked inode. */
    method Iput(i: nat)
      requires i in refs && refs[i] > 0
      modifies this
      ensures refs == old(refs)[i := old(refs[i]) - 1]
    {
      refs := refs[i := refs[i] - 1];
    }

    /** Take the reference for the walk's first inode. */
    method Start(i: nat)
      requires Valid() && i in fs.inodes
      modifies this
      ensures Valid() && Holds(old(refs), Some(i))
    {
      hide TreeOk;
      Iget(i);
    }

    /** Give the walk's reference back. */
    method Drop(ghost r0: map<nat, nat>, i: nat)
      requires Valid() && i in fs.inodes && Holds(r0, Some(i))
      modifies this
      ensures Valid() && Holds(r0, None)
    {
      hide TreeOk;
      Iput(i);
    }

    /** Move the walk's reference on: iget of the next inode inside dirlookup, then iunlockput. */
    method Move(ghost r0: map<nat, nat>, i: nat, j: nat)
      requires Valid() && i in fs.inodes && j in fs.inodes && Holds(r0, Some(i))
      modifies this
      ensures Valid() && Holds(r0, Some(j))
    {
      hide TreeOk;
      Iget(j);
      Iput(i);
    }

    /** One dirlookup of the walk. */
    method Lookup(i: nat, name: Name) returns (j: nat)
      requires TreeOk() && i in dirs && |name| <= DIRSIZ
      modifies fs`bitmap, fs`data, fs`inodes, fs`logged, fs`owner
      ensures TreeOk() && fs.F() == old(fs.F())
      ensures i in G() && if name in G()[i] then j == G()[i][name] != 0 else j == 0
      ensures j != 0 ==> j in fs.inodes
    {
      hide SlotsOk, BitmapOk, DirMap, DirOk, FileOk, InodesOk, Content;
      assert fs.inodes == fs.F().inodes && IsDirectory(fs.F(), i);
      var off;
      j, off := Dirlookup(fs, i, name);
    }

    lemma Keys(f: Files)
      requires Directories(f, dirs)
      ensures GraphOf(f, dirs).Keys == dirs
    {
    }

    /** namex. */
    method Namex(path: Name, parent: bool) returns (ip: Option<nat>, name: Name)
      requires Valid()
      modifies this, fs`bitmap, fs`data, fs`inodes, fs`logged, fs`owner
      ensures Valid() && fs.F() == old(fs.F()) && Holds(old(refs), ip)
      ensures ip == Walk(G(), if CharAt(path, 0) == SLASH then ROOTINO else cwd, Elements(path), parent)
      ensures parent && ip.Some? ==> Elements(path) != [] && name == Cut(Elements(path)[|Elements(path)| - 1])
    {
      hide fs.Valid, GraphOf, Directories, Closed, Elements, Follow, FollowParent, Refs, Holds, Cut;
      ghost var f, r0 := fs.F(), refs;
      ghost var g := G();
      Keys(f);
      var i := if CharAt(path, 0) == SLASH then ROOTINO else cwd;
      ghost var goal := Walk(g, i, Elements(path), parent);
      Start(i);
      var p := 0;
      assert path[0..] == path;
      var next;
      next, name := Skipelem(path, p);
      while next.Some?
        invariant fs.F() == f && Valid() && i in f.inodes && Holds(r0, Some(i)) && Cuts(path, p, next, name)
        invariant Walk(g, i, Elements(path[p..]), parent) == goal && SameLast(Elements(path[p..]), Elements(path))
        decreases |path| - p
      {
        FollowStep(g, i, Elements(path[p..]));
        p := next.value;
        if i !in dirs {
          Drop(r0, i);
          return None, name;
        }
        if parent && CharAt(path, p) == 0 {
          return Some(i), name;
        }
        var j := Lookup(i, name);
        if j == 0 {
          Drop(r0, i);
          return None, name;
        }
        Move(r0, i, j);
        i := j;
        next, name := Skipelem(path, p);
      }
      NoMore(g, i);
      if parent {
        Drop(r0, i);
        return None, name;
      }
      ip := Some(i);
    }

    /** dirlink in a directory of the tree. */
    method LinkIn(d: nat, name: Name, inum: nat) returns (ok: bool)
      requires TreeOk() && d in dirs && |name| <= DIRSIZ && inum in fs.inodes && 0 < inum < 65536
      modifies fs
      ensures TreeOk() && fs.inodes.Keys == old(fs.inodes.Keys) && d in old(G())
      ensures ok ==> name !in old(G()[d]) && G() == old(G())[d := Bind(old(G()[d]), name, inum)]
      ensures !ok ==> G() == old(G()) && (name in old(G()[d]) || fs.Full() || AtLimit(fs.F(), d))
    {
      hide SlotsOk, BitmapOk, FilesOk, DirMap, DirOk, FileOk, OnlyChanged, Closed;
      ghost var f, g := fs.F(), G();
      Keys(f);
      var r := Dirlink(fs, d, name, inum);
      SameInums(f, fs.F(), d);
      GraphLinked(f, fs.F(), dirs, d);
      ok := r == 0;
      if ok {
        BindCloses(g, G(), d, name, inum, f.inodes.Keys);
      } else {
        assert G() == g;
      }
      assert forall i :: i in f.inodes ==> i in fs.inodes;
    }

    ghost function From(path: Name): (i: nat) { if CharAt(path, 0) == SLASH then ROOTINO else cwd }

    lemma RefsSame(f: Files, f': Files, d: nat)
      requires Refs(f.inodes) && f'.inodes.Keys == f.inodes.Keys && Directories(f, dirs) && d in dirs
      ensures Refs(f'.inodes) && d in f'.inodes
    {
      hide DirOk;
    }

    /** The directory half of link: nameiparent, then dirlink in what it found. On success the new path
        leads to inum, and every path that led somewhere leads there still. */
    method LinkAt(path: Name, inum: nat) returns (ok: bool)
      requires Valid() && inum in fs.inodes && 0 < inum < 65536
      modifies this, fs
      ensures Valid() && Holds(old(refs), None)
      ensures ok ==> LinkedIn(old(G()), G(), From(path), Elements(path), inum)
      ensures ok ==> old(Follow(G(), From(path), Elements(path))) == None
                     && Follow(G(), From(path), Elements(path)) == Some(inum)
      ensures ok ==> forall j, es :: old(Follow(G(), j, es)).Some? ==> Follow(G(), j, es) == old(Follow(G(), j, es))
      ensures !ok ==> G() == old(G())
      ensures !ok ==> FollowParent(G(), From(path), Elements(path)).None?
                      || Follow(G(), From(path), Elements(path)).Some?
                      || fs.Full() || AtLimit(fs.F(), FollowParent(G(), From(path), Elements(path)).value)
    {
      hide Elements, Holds, FollowParent, Follow, fs.Valid, Refs, Directories, GraphOf, Closed;
      ghost var f, r0, g, es, i := fs.F(), refs, G(), Elements(path), From(path);
      var ip, name := Namex(path, true);
      if ip == None { return false; }
      var d := ip.value;
      ParentIs(g, i, es);
      Keys(f);
      ok := LinkIn(d, name, inum);
      RefsSame(f, fs.F(), d);
      if ok { LinkResolves(g, G(), i, es, inum); }
      Drop(r0, d);
    }
  }

  lemma NoMore(g: Graph, i: nat)
    ensures Follow(g, i, []) == Some(i) && FollowParent(g, i, []) == None
  {
  }
}
