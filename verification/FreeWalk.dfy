/** What freewalk removes: the tables under a page, branch by branch. */
module FreeWalk {
  import opened PageTable
  import opened VmSpec

  /** The entry of p that q, a table below p, hangs from. */
  ghost predicate Below(t: Tree, q: nat, p: nat)
    requires TreeOk(t)
  {
    && q in t.tables && p in t.tables && t.up[q].level < 2
    && (t.up[q].parent == p || (t.up[q].level == 0 && t.up[q].parent in t.tables && t.up[t.up[q].parent].parent == p))
  }

  ghost function Branch(t: Tree, q: nat, p: nat): (i: nat)
    requires TreeOk(t) && Below(t, q, p)
  {
    if t.up[q].parent == p then t.up[q].idx else t.up[t.up[q].parent].idx
  }

  /** A level-0 page's parent has level 1 and a level-1 page's has level 2, so p is above q. */
  lemma BelowLevels(t: Tree, q: nat, p: nat)
    requires TreeOk(t) && Below(t, q, p)
    ensures t.up[q].level < t.up[p].level && Branch(t, q, p) < 512
    ensures t.tables[p][Branch(t, q, p)].valid
    ensures t.up[q].parent == p ==> t.tables[p][Branch(t, q, p)].ppn == q
    ensures t.up[q].parent != p ==> t.tables[p][Branch(t, q, p)].ppn == t.up[q].parent
  {
    assert UpAt(t, q);
    assert UpAt(t, t.up[q].parent);
  }

  /** t without p and the tables below it. */
  ghost predicate Pruned(t: Tree, p: nat, u: Tree)
    requires TreeOk(t)
  {
    && (forall q {:trigger q in u.tables} :: q in u.tables <==> q in t.tables && q != p && !Below(t, q, p))
    && (forall q {:trigger q in u.up} :: q in u.up <==> q in u.tables)
    && (forall q {:trigger u.tables[q]} :: q in u.tables && q in t.tables ==> u.tables[q] == t.tables[q])
    && (forall q {:trigger u.up[q]} :: q in u.up && q in t.up ==> u.up[q] == t.up[q])
  }

  /** t without the tables that hang from the first i entries of p, and those entries cleared. */
  ghost predicate Cut(t: Tree, p: nat, i: nat, u: Tree)
    requires TreeOk(t) && p in t.tables && i <= 512
  {
    && (forall q {:trigger q in u.tables} :: q in u.tables <==> q in t.tables
                                                                && !(Below(t, q, p) && Branch(t, q, p) < i))
    && (forall q {:trigger q in u.up} :: q in u.up <==> q in u.tables)
    && (forall q {:trigger u.tables[q]} :: q in u.tables && q in t.tables && q != p ==> u.tables[q] == t.tables[q])
    && p in u.tables && |u.tables[p]| == 512
    && (forall j :: 0 <= j < i ==> !u.tables[p][j].valid)
       && (forall j :: i <= j < 512 ==> u.tables[p][j] == t.tables[p][j])
    && (forall q {:trigger u.up[q]} :: q in u.up && q in t.up ==> u.up[q] == t.up[q])
  }

  lemma CutNothing(t: Tree, p: nat)
    requires TreeOk(t) && p in t.tables
    ensures Cut(t, p, 0, t)
  {
  }

  lemma CutOk(t: Tree, p: nat, i: nat, u: Tree)
    requires TreeOk(t) && p in t.tables && i <= 512 && Cut(t, p, i, u)
    ensures TreeOk(u)
  {
    forall q: nat, j: nat ensures Shape(u) && DownAt(u, q, j) {
      assert DownAt(t, q, j);
      if q in t.tables && Below(t, q, p) { BelowLevels(t, q, p); }
      if q in u.tables && j < 512 && t.up[q].level > 0 && u.tables[q][j].valid {
        var c := u.tables[q][j].ppn;
        if Below(t, c, p) { BelowLevels(t, c, p); }
      }
    }
    forall q: nat ensures UpAt(u, q) {
      assert UpAt(t, q);
      if q in u.tables && t.up[q].level < 2 {
        var a := t.up[q].parent;
        assert UpAt(t, a);
        if Below(t, q, p) { BelowLevels(t, q, p); }
        if Below(t, a, p) { BelowLevels(t, a, p); }
      }
    }
  }

  /** Below p, hanging from entry i, are the table that entry points to and the tables below that. */
  lemma BranchIs(t: Tree, p: nat, i: nat, q: nat)
    requires TreeOk(t) && p in t.tables && t.up[p].level > 0 && i < 512 && t.tables[p][i].valid
    ensures var c := t.tables[p][i].ppn;
            c in t.tables && t.up[c] == Link(t.up[p].level - 1, p, i)
            && ((Below(t, q, p) && Branch(t, q, p) == i) <==> (q == c || Below(t, q, c)))
  {
    var c := t.tables[p][i].ppn;
    assert DownAt(t, p, i);
    if Below(t, q, p) { BelowLevels(t, q, p); }
    if Below(t, q, c) { BelowLevels(t, q, c); assert UpAt(t, q) && UpAt(t, t.up[q].parent); }
  }

  /** Being below a table that is still there does not change when branches elsewhere are cut. */
  lemma CutBelow(t: Tree, p: nat, i: nat, u: Tree, q: nat, c: nat)
    requires TreeOk(t) && p in t.tables && i <= 512 && Cut(t, p, i, u) && TreeOk(u) && q in u.tables && c in u.tables
    ensures Below(u, q, c) <==> Below(t, q, c)
  {
    assert UpAt(u, q) && UpAt(t, q);
  }

  /** Freeing the table under entry i and clearing the entry cuts one branch more. */
  lemma CutBranch(t: Tree, p: nat, i: nat, u: Tree, w: Tree)
    requires TreeOk(t) && p in t.tables && i < 512 && Cut(t, p, i, u) && TreeOk(u) && t.up[p].level > 0
             && t.tables[p][i].valid
    requires Pruned(u, t.tables[p][i].ppn, w)
    ensures p in w.tables && |w.tables[p]| == 512 && Cut(t, p, i + 1, SetEntry(w, p, i, INVALID))
  {
    var c := t.tables[p][i].ppn;
    BranchIs(t, p, i, c);
    assert c in u.tables;
    assert p in w.tables by { if Below(u, p, c) { BelowLevels(u, p, c); } }
    var x := SetEntry(w, p, i, INVALID);
    forall q ensures q in x.tables <==> q in t.tables && !(Below(t, q, p) && Branch(t, q, p) < i + 1) {
      BranchIs(t, p, i, q);
      if q in u.tables { CutBelow(t, p, i, u, q, c); }
    }
  }

  lemma CutSkip(t: Tree, p: nat, i: nat, u: Tree)
    requires TreeOk(t) && p in t.tables && i < 512 && Cut(t, p, i, u) && !(t.up[p].level > 0 && t.tables[p][i].valid)
             && !t.tables[p][i].valid
    ensures Cut(t, p, i + 1, u)
  {
    forall q | q in t.tables && Below(t, q, p) ensures Branch(t, q, p) != i { BelowLevels(t, q, p); }
  }

  ghost predicate NoLeaves(t: Tree, p: nat)
    requires TreeOk(t)
  {
    forall q: nat, i: nat {:trigger t.tables[q][i]} ::
      q in t.tables && t.up[q].level == 0 && (q == p || Below(t, q, p)) && i < 512 ==> !t.tables[q][i].valid
  }

  /** Without leaves, a valid entry that looks like a pointer is one. */
  lemma IsTablePointer(t: Tree, p: nat, i: nat)
    requires TreeOk(t) && p in t.tables && i < 512 && t.tables[p][i].valid && NoLeaves(t, p)
    ensures t.up[p].level > 0 && t.tables[p][i].ppn in t.tables && t.up[t.tables[p][i].ppn].level < t.up[p].level
  {
    assert DownAt(t, p, i);
  }

  /** Without leaves, a valid entry is a pointer: freewalk does not panic. */
  lemma NotLeaf(t: Tree, p: nat, i: nat)
    requires TreeOk(t) && p in t.tables && i < 512 && NoLeaves(t, p)
    ensures t.tables[p][i].valid ==> IsPointer(t.tables[p][i])
  {
    assert DownAt(t, p, i);
  }

  /** With every branch cut, removing p itself leaves the pruned tree. */
  lemma CutAll(t: Tree, p: nat, u: Tree)
    requires TreeOk(t) && p in t.tables && Cut(t, p, 512, u)
    ensures Pruned(t, p, Tree(u.tables - {p}, u.up - {p}))
  {
    forall q | q in t.tables && Below(t, q, p) ensures Branch(t, q, p) < 512 && q != p { BelowLevels(t, q, p); }
  }

  /** A child's tables have no leaves either, however many branches are cut already. */
  lemma CutNoLeaves(t: Tree, p: nat, i: nat, u: Tree)
    requires TreeOk(t) && p in t.tables && i < 512 && Cut(t, p, i, u) && TreeOk(u) && t.up[p].level > 0
             && t.tables[p][i].valid && NoLeaves(t, p)
    ensures t.tables[p][i].ppn in u.tables && NoLeaves(u, t.tables[p][i].ppn)
  {
    var c := t.tables[p][i].ppn;
    BranchIs(t, p, i, c);
    assert c in u.tables;
    forall q: nat, j: nat | q in u.tables && u.up[q].level == 0 && (q == c || Below(u, q, c)) && j < 512
      ensures !u.tables[q][j].valid
    {
      CutBelow(t, p, i, u, q, c);
      BranchIs(t, p, i, q);
      assert !t.tables[q][j].valid;
    }
  }

  // Freeing a whole address space.

  /** An address space with nothing mapped has no leaves. */
  lemma EmptyHasNoLeaves(t: Tree, r: nat)
    requires AllEmpty(t, r, 0, MAXVPN)
    ensures NoLeaves(t, r)
  {
    forall q: nat, i: nat | q in t.tables && t.up[q].level == 0 && (q == r || Below(t, q, r)) && i < 512
      ensures !t.tables[q][i].valid
    {
      assert UpAt(t, q) && UpAt(t, t.up[q].parent);
      var l1 := t.up[q].parent;
      var v := t.up[l1].idx * 262144 + t.up[q].idx * 512 + i;
      assert v / 512 == t.up[l1].idx * 512 + t.up[q].idx && v / 262144 == t.up[l1].idx;
      assert PX(2, v) == t.up[l1].idx && PX(1, v) == t.up[q].idx && PX(0, v) == i;
      assert Lookup(t, r, v) == INVALID;
    }
  }

  lemma PrunedOk(t: Tree, r: nat, u: Tree)
    requires TreeOk(t) && IsRoot(t, r) && Pruned(t, r, u)
    ensures TreeOk(u) && !(r in u.tables)
  {
    assert Shape(u);
    forall q: nat, j: nat ensures DownAt(u, q, j) {
      assert DownAt(t, q, j);
      if q in u.tables && j < 512 && t.up[q].level > 0 && t.tables[q][j].valid {
        var c := t.tables[q][j].ppn;
        assert UpAt(t, q);
        if Below(t, c, r) { BelowLevels(t, c, r); }
      }
    }
    forall q: nat ensures UpAt(u, q) {
      assert UpAt(t, q);
      if q in u.tables && t.up[q].level < 2 { assert UpAt(t, t.up[q].parent); }
    }
  }

  lemma PrunedRootOf(t: Tree, r: nat, u: Tree, q: nat)
    requires TreeOk(t) && IsRoot(t, r) && Pruned(t, r, u) && TreeOk(u) && q in t.tables
    ensures RootOf(t, q) == r <==> q !in u.tables
    ensures q in u.tables ==> RootOf(u, q) == RootOf(t, q)
  {
    assert UpAt(t, q) && UpAt(t, t.up[q].parent);
    if Below(t, q, r) { BelowLevels(t, q, r); }
    if q in u.tables { assert UpAt(u, q) && UpAt(u, u.up[q].parent); }
  }

  lemma PrunedLookup(t: Tree, r: nat, u: Tree, s: nat, w: nat)
    requires TreeOk(t) && IsRoot(t, r) && Pruned(t, r, u) && TreeOk(u) && s != r && IsRoot(t, s)
    ensures IsRoot(u, s) && Lookup(u, s, w) == Lookup(t, s, w)
  {
    PrunedRootOf(t, r, u, s);
    if HasL1(t, s, w) {
      PrunedRootOf(t, r, u, L1(t, s, w));
      assert HasL1(u, s, w) && L1(u, s, w) == L1(t, s, w);
      if HasL0(t, s, w) {
        assert UpAt(t, L1(t, s, w));
        PrunedRootOf(t, r, u, L0(t, s, w));
        assert L0(u, s, w) == L0(t, s, w);
      }
    }
  }

  lemma PrunedUser(t: Tree, r: nat, u: Tree, data: map<nat, Page>, home: map<nat, Loc>)
    requires UserOk(t, data, home) && AllEmpty(t, r, 0, MAXVPN) && Pruned(t, r, u)
    ensures TreeOk(u) && UserOk(u, data, home)
  {
    PrunedOk(t, r, u);
    forall s: nat, w: nat ensures OwnedAt(u, data, home, s, w) {
      assert OwnedAt(t, data, home, s, w);
      if IsRoot(u, s) { assert IsRoot(t, s); PrunedLookup(t, r, u, s, w); }
    }
    forall q: nat ensures HomeAt(u, data, home, q) {
      assert HomeAt(t, data, home, q);
      if q in home { PrunedLookup(t, r, u, home[q].root, home[q].vpn); }
    }
  }

  lemma PrunedOthers(t: Tree, r: nat, u: Tree)
    requires TreeOk(t) && IsRoot(t, r) && Pruned(t, r, u) && TreeOk(u)
    ensures SameOthers(t, u, r)
  {
    hide RootOf, Below, DownAt, UpAt;
    forall q: nat | q in t.tables && RootOf(t, q) != r
      ensures q in u.tables && RootOf(u, q) != r && u.tables[q] == t.tables[q] && u.up[q] == t.up[q]
    {
      PrunedRootOf(t, r, u, q);
    }
    forall q: nat | q in u.tables && RootOf(u, q) != r ensures q in t.tables && RootOf(t, q) != r {
      PrunedRootOf(t, r, u, q);
    }
  }

  // A new address space, and getting rid of it.

  ghost function Rooted(t: Tree, q: nat): (u: Tree) { Tree(t.tables[q := EmptyTable()], t.up[q := Link(2, 0, 0)]) }

  lemma RootedOk(t: Tree, q: nat)
    requires TreeOk(t) && q !in t.tables
    ensures TreeOk(Rooted(t, q)) && IsRoot(Rooted(t, q), q) && AllEmpty(Rooted(t, q), q, 0, MAXVPN)
  {
    var u := Rooted(t, q);
    forall p: nat, i: nat ensures DownAt(u, p, i) { assert DownAt(t, p, i); }
    forall p: nat ensures UpAt(u, p) { assert UpAt(t, p); }
  }

  lemma RootedLookup(t: Tree, q: nat, s: nat, w: nat)
    requires TreeOk(t) && q !in t.tables && TreeOk(Rooted(t, q)) && IsRoot(t, s)
    ensures IsRoot(Rooted(t, q), s) && Lookup(Rooted(t, q), s, w) == Lookup(t, s, w)
  {
    var u := Rooted(t, q);
    if HasL1(t, s, w) {
      assert L1(u, s, w) == L1(t, s, w);
      if HasL0(t, s, w) { assert L0(u, s, w) == L0(t, s, w); }
    }
  }

  lemma RootedUser(t: Tree, q: nat, data: map<nat, Page>, home: map<nat, Loc>)
    requires UserOk(t, data, home) && q !in t.tables
    ensures UserOk(Rooted(t, q), data, home) && AllEmpty(Rooted(t, q), q, 0, MAXVPN)
  {
    RootedOk(t, q);
    var u := Rooted(t, q);
    forall s: nat, w: nat ensures OwnedAt(u, data, home, s, w) {
      assert OwnedAt(t, data, home, s, w);
      if IsRoot(t, s) { RootedLookup(t, q, s, w); }
    }
    forall a: nat ensures HomeAt(u, data, home, a) {
      assert HomeAt(t, data, home, a);
      if a in home { RootedLookup(t, q, home[a].root, home[a].vpn); }
    }
  }

  /** u is t with the tree of a new root r beside it. */
  ghost predicate Aside(t: Tree, u: Tree, r: nat) {
    TreeOk(t) && TreeOk(u) && r !in t.tables && IsRoot(u, r) && SameOthers(t, u, r)
  }

  lemma RootedRoot(t: Tree, q: nat, a: nat)
    requires TreeOk(t) && q !in t.tables && TreeOk(Rooted(t, q)) && (a in t.tables || a == q)
    ensures a != q ==> RootOf(Rooted(t, q), a) == RootOf(t, a) != q && a in t.up && Rooted(t, q).up[a] == t.up[a]
    ensures a == q ==> RootOf(Rooted(t, q), a) == q
  {
    var u := Rooted(t, q);
    assert UpAt(u, a) && UpAt(u, u.up[a].parent);
    if a != q { assert UpAt(t, a) && UpAt(t, t.up[a].parent); }
  }

  lemma RootedAside(t: Tree, q: nat)
    requires TreeOk(t) && q !in t.tables
    ensures Aside(t, Rooted(t, q), q)
  {
    hide RootOf, TreeOk;
    RootedOk(t, q);
    var u := Rooted(t, q);
    RootedRoot(t, q, q);
    forall a: nat | a in t.tables
      ensures RootOf(u, a) == RootOf(t, a) != q && a in t.up && a in u.up && u.up[a] == t.up[a]
              && u.tables[a] == t.tables[a]
    {
      RootedRoot(t, q, a);
    }
  }

  lemma AsideStep(t: Tree, u: Tree, w: Tree, r: nat)
    requires Aside(t, u, r) && TreeOk(w) && IsRoot(w, r) && SameOthers(u, w, r)
    ensures Aside(t, w, r)
  {
    OthersTrans(t, u, w, r);
  }

  ghost predicate NoTables(t: Tree, r: nat)
    requires TreeOk(t)
  {
    forall q: nat :: q in t.tables ==> RootOf(t, q) != r
  }

  lemma SameAllAt(t: Tree, w: Tree, r: nat, q: nat)
    requires TreeOk(t) && TreeOk(w) && SameOthers(t, w, r) && NoTables(t, r) && NoTables(w, r)
    ensures (q in w.tables <==> q in t.tables) && (q in w.up <==> q in t.up)
    ensures q in t.tables ==> q in w.tables && q in w.up && w.tables[q] == t.tables[q] && w.up[q] == t.up[q]
  {
    hide RootOf, DownAt, UpAt;
  }

  /** Getting rid of the new root's tables leaves exactly what there was. */
  lemma AsideBack(t: Tree, u: Tree, r: nat, w: Tree)
    requires Aside(t, u, r) && TreeOk(w) && SameOthers(u, w, r) && NoTables(w, r)
    ensures w == t
  {
    hide SameOthers, DownAt, UpAt;
    OthersTrans(t, u, w, r);
    forall q: nat | q in t.tables ensures RootOf(t, q) != r { assert RootOf(t, q) in t.tables; }
    forall q: nat
      ensures (q in w.tables <==> q in t.tables) && (q in w.up <==> q in t.up)
      ensures q in t.tables ==> q in w.tables && q in w.up && w.tables[q] == t.tables[q] && w.up[q] == t.up[q]
    {
      SameAllAt(t, w, r, q);
    }
    assert w.tables == t.tables && w.up == t.up;
  }

  lemma PrunedNoTables(t: Tree, r: nat, u: Tree)
    requires TreeOk(t) && IsRoot(t, r) && Pruned(t, r, u) && TreeOk(u)
    ensures NoTables(u, r)
  {
    hide RootOf, Below, DownAt, UpAt;
    forall q: nat | q in u.tables ensures RootOf(u, q) != r { PrunedRootOf(t, r, u, q); }
  }

  /** From s to u, address space r of n user pages is gone: its tables and its pages, and no others. */
  ghost predicate Gone(s: Space, u: Space, r: nat, n: nat) {
    TreeOk(s.t) && TreeOk(u.t) && SameOthers(s.t, u.t, r) && NoTables(u.t, r)
    && Released(s.home, s.data, u.home, u.data, r, 0, n, true)
  }

  lemma GoneAfter(s: Space, m: Space, u: Space, r: nat, n: nat)
    requires TreeOk(s.t) && IsRoot(m.t, r) && TreeOk(m.t) && SameOthers(s.t, m.t, r)
             && Released(s.home, s.data, m.home, m.data, r, 0, n, true)
    requires Pruned(m.t, r, u.t) && TreeOk(u.t) && u.home == m.home && u.data == m.data
    ensures Gone(s, u, r, n)
  {
    hide Below, DownAt, UpAt, RootOf, Released;
    PrunedOthers(m.t, r, u.t);
    OthersTrans(s.t, m.t, u.t, r);
    PrunedNoTables(m.t, r, u.t);
  }

  lemma GoneTrans(s: Space, m: Space, u: Space, r: nat, n: nat)
    requires TreeOk(s.t) && TreeOk(m.t) && SameOthers(s.t, m.t, r) && m.home == s.home && m.data == s.data
             && Gone(m, u, r, n)
    ensures Gone(s, u, r, n)
  {
    OthersTrans(s.t, m.t, u.t, r);
  }

  /** Other roots' mappings depend on their tables alone. */
  lemma OthersLookup(t: Tree, u: Tree, r: nat, s: nat, w: nat)
    requires TreeOk(t) && TreeOk(u) && SameOthers(t, u, r) && IsRoot(t, s) && s != r
    ensures IsRoot(u, s) && Lookup(u, s, w) == Lookup(t, s, w)
  {
    assert RootOf(t, s) == s;
    assert s in u.tables;
    if HasL1(t, s, w) {
      assert RootOf(t, L1(t, s, w)) == s;
      assert L1(t, s, w) in u.tables;
      if HasL0(t, s, w) {
        assert RootOf(t, L0(t, s, w)) == s;
        assert L0(t, s, w) in u.tables;
      }
    }
  }

  /** With no user pages there is nothing to release. */
  lemma GoneEmpty(s: Space, u: Space, r: nat)
    requires Gone(s, u, r, 0)
    ensures u.home == s.home && u.data == s.data
  {
  }

  lemma GoneFacts(s: Space, u: Space, r: nat, n: nat)
    requires Gone(s, u, r, n)
    ensures TreeOk(u.t) && SameOthers(s.t, u.t, r) && NoTables(u.t, r)
  {
  }

  /** The parent's mappings are still there beside the child's new page table. */
  lemma ParentAside(t: Tree, u: Tree, r: nat, parent: nat, n: nat)
    requires Aside(t, u, r) && AllMapped(t, parent, 0, n)
    ensures parent != r && AllMapped(u, parent, 0, n)
  {
    OthersLookup(t, u, r, parent, 0);
    forall w: nat | w < n ensures Lookup(u, parent, w) == Lookup(t, parent, w) { OthersLookup(t, u, r, parent, w); }
  }

  lemma RestoredFacts(s: Space, u: Space, r: nat)
    requires Restored(s, u, r) && IsRoot(s.t, r) && Lookup(s.t, r, TRAPFRAME).valid && Lookup(s.t, r, TRAMPOLINE).valid
             && AllEmpty(s.t, r, 0, TRAPFRAME)
    ensures TreeOk(u.t) && IsRoot(u.t, r) && SameOthers(s.t, u.t, r) && u.data == s.data && u.home == s.home
    ensures Lookup(u.t, r, TRAPFRAME).valid && Lookup(u.t, r, TRAMPOLINE).valid && AllEmpty(u.t, r, 0, TRAPFRAME)
            && AllMapped(u.t, r, 0, 0)
  {
    hide Lookup, DownAt, UpAt, SameOthers;
  }

  /** After the copy, the child's trapframe and trampoline are still mapped, and nothing between them
      and the copied pages; the parent's data pages are as they were. */
  lemma ExtendedFacts(s: Space, u: Space, r: nat, n: nat)
    requires Extended(s, u, r, 0, n) && n <= TRAPFRAME && IsRoot(s.t, r) && Lookup(s.t, r, TRAPFRAME).valid
             && Lookup(s.t, r, TRAMPOLINE).valid
    requires AllEmpty(s.t, r, 0, TRAPFRAME)
    ensures TreeOk(u.t) && IsRoot(u.t, r) && SameOthers(s.t, u.t, r) && AllEmpty(u.t, r, n, TRAPFRAME)
    ensures Lookup(u.t, r, TRAPFRAME) == Lookup(s.t, r, TRAPFRAME)
            && Lookup(u.t, r, TRAMPOLINE) == Lookup(s.t, r, TRAMPOLINE)
    ensures forall q :: q in s.data ==> q in u.data && u.data[q] == s.data[q]
    ensures forall q :: q in s.data && q in u.home ==> q in s.home
  {
    hide Lookup, DownAt, UpAt, SameOthers;
    OnlyOutside(s.t, u.t, r, 0, n, r, TRAPFRAME);
    OnlyOutside(s.t, u.t, r, 0, n, r, TRAMPOLINE);
    forall w: nat | n <= w < TRAPFRAME ensures Lookup(u.t, r, w) == Lookup(s.t, r, w) {
      OnlyOutside(s.t, u.t, r, 0, n, r, w);
    }
    forall q | q in s.data && q in u.home ensures q in s.home { assert q in s.data && !Owned(u.home, q, r, 0, n); }
  }

  /** The free list gained r's tables and its n user pages, and nothing else. */
  ghost predicate FreedExactly(f: seq<nat>, s: Space, g: seq<nat>, r: nat, n: nat)
    requires TreeOk(s.t)
  {
    forall q: nat {:trigger q in g} :: q in g <==> q in f || (q in s.t.tables && RootOf(s.t, q) == r)
                                                   || Owned(s.home, q, r, 0, n)
  }

  lemma FreedExactlyAt(f: seq<nat>, s: Space, g: seq<nat>, u: Space, r: nat, n: nat, q: nat)
    requires PoolOk(f, s.t, s.data) && PoolOk(g, u.t, u.data) && PoolSet(f, s.t, s.data) == PoolSet(g, u.t, u.data)
    requires UserOk(s.t, s.data, s.home) && Gone(s, u, r, n)
    ensures q in g <==> q in f || (q in s.t.tables && RootOf(s.t, q) == r) || Owned(s.home, q, r, 0, n)
  {
    hide DownAt, UpAt, OwnedAt, HomeAt, RootOf;
    HomesAreData(s.t, s.data, s.home);
    assert q in PoolSet(f, s.t, s.data) <==> q in PoolSet(g, u.t, u.data);
    assert q in FreeSet(f) <==> q in f;
    assert q in FreeSet(g) <==> q in g;
    assert q in s.t.tables && RootOf(s.t, q) != r ==> q in u.t.tables;
    assert q in u.t.tables ==> q in s.t.tables && RootOf(s.t, q) != r;
    assert q in u.data <==> q in s.data && !Owned(s.home, q, r, 0, n);
    assert q in f ==> q !in s.t.tables && q !in s.data;
    assert q in g ==> q !in u.t.tables && q !in u.data;
  }
}
