/** Address spaces over page tables: which data page each user mapping owns, and what mapping,
    unmapping and freeing do to the partial maps of all roots. */
module VmSpec {
  import opened Blocks
  import opened PageTable

  type PageBytes = s: seq<Byte> | |s| == 4096 witness seq(4096, _ => 0)

  datatype Page = Page(bytes: PageBytes)

  function Filled(b: Byte): (p: Page) { Page(seq(4096, _ => b)) }

  /** The one mapping that owns a user page. */
  datatype Loc = Loc(root: nat, vpn: nat)

  /** The page-table page at the top of the tree that q is in. */
  ghost function RootOf(t: Tree, q: nat): (r: nat)
    requires TreeOk(t) && q in t.tables
    ensures r in t.tables && t.up[r].level == 2
  {
    assert UpAt(t, q);
    if t.up[q].level == 2 then q
    else assert UpAt(t, t.up[q].parent); if t.up[q].level == 1 then t.up[q].parent else t.up[t.up[q].parent].parent
  }

  ghost predicate SameRoots(t: Tree, u: Tree) {
    forall s: nat {:trigger IsRoot(u, s)} {:trigger IsRoot(t, s)} :: IsRoot(u, s) <==> IsRoot(t, s)
  }

  /** The tables that are not root r's. */
  ghost predicate SameOthers(t: Tree, u: Tree, r: nat)
    requires TreeOk(t) && TreeOk(u)
  {
    && (forall q: nat {:trigger q in u.tables} :: q in t.tables && RootOf(t, q) != r ==>
          q in u.tables && RootOf(u, q) != r && u.tables[q] == t.tables[q] && u.up[q] == t.up[q])
    && (forall q: nat {:trigger q in t.tables} :: q in u.tables && RootOf(u, q) != r ==>
          q in t.tables && RootOf(t, q) != r)
  }

  /** No mapping of any root differs. */
  ghost predicate SameMaps(t: Tree, u: Tree)
    requires TreeOk(t) && TreeOk(u)
  {
    && SameRoots(t, u)
    && forall s: nat, w: nat {:trigger Lookup(u, s, w)} :: IsRoot(t, s) && IsRoot(u, s) && w < MAXVPN ==>
         Lookup(u, s, w) == Lookup(t, s, w)
  }

  /** The maps differ in page v of root r alone, which becomes e. */
  ghost predicate Edited(t: Tree, u: Tree, r: nat, v: nat, e: Pte)
    requires TreeOk(t) && TreeOk(u)
  {
    && SameRoots(t, u)
    && forall s: nat, w: nat {:trigger Lookup(u, s, w)} :: IsRoot(t, s) && IsRoot(u, s) && w < MAXVPN ==>
         Lookup(u, s, w) == if s == r && w == v then e else Lookup(t, s, w)
  }

  /** Every mapping below TRAPFRAME owns its data page, no other mapping owns one, and only owned
      pages are open to user code. */
  ghost predicate OwnedAt(t: Tree, data: map<nat, Page>, home: map<nat, Loc>, r: nat, v: nat)
    requires TreeOk(t)
  {
    IsRoot(t, r) && v < MAXVPN && Lookup(t, r, v).valid ==>
      var e := Lookup(t, r, v);
      && !IsPointer(e)
      && if v < TRAPFRAME then e.ppn in data && e.ppn in home && home[e.ppn] == Loc(r, v) else !e.perm.u
  }

  ghost predicate HomeAt(t: Tree, data: map<nat, Page>, home: map<nat, Loc>, q: nat)
    requires TreeOk(t)
  {
    q in home ==>
      && q in data && home[q].vpn < TRAPFRAME && IsRoot(t, home[q].root)
      && Lookup(t, home[q].root, home[q].vpn).valid && Lookup(t, home[q].root, home[q].vpn).ppn == q
  }

  ghost predicate UserOk(t: Tree, data: map<nat, Page>, home: map<nat, Loc>) {
    && TreeOk(t)
    && (forall r: nat, v: nat {:trigger OwnedAt(t, data, home, r, v)} :: OwnedAt(t, data, home, r, v))
    && (forall q: nat {:trigger HomeAt(t, data, home, q)} :: HomeAt(t, data, home, q))
  }

  /** Every page is free, or a page-table page, or a data page. */
  ghost predicate PoolOk(freelist: seq<nat>, t: Tree, data: map<nat, Page>) {
    && (forall i, j :: 0 <= i < j < |freelist| ==> freelist[i] != freelist[j])
    && (forall i :: 0 <= i < |freelist| ==> freelist[i] != 0 && freelist[i] !in t.tables && freelist[i] !in data)
    && (forall q :: q in t.tables ==> q != 0 && q !in data)
    && 0 !in data
  }

  ghost function FreeSet(freelist: seq<nat>): (s: set<nat>) { set q | q in freelist }

  /** All the pages there are. */
  ghost function PoolSet(free: seq<nat>, t: Tree, data: map<nat, Page>): (s: set<nat>) {
    FreeSet(free) + t.tables.Keys + data.Keys
  }

  lemma PoolFreed(free: seq<nat>, t: Tree, data: map<nat, Page>, q: nat)
    requires q in data
    ensures PoolSet([q] + free, t, data - {q}) == PoolSet(free, t, data)
  {
    assert FreeSet([q] + free) == FreeSet(free) + {q};
  }

  /** A table goes back to the free list. */
  lemma PoolTableFreed(free: seq<nat>, t: Tree, u: Tree, data: map<nat, Page>, p: nat)
    requires PoolOk(free, t, data) && p in t.tables && u.tables == t.tables - {p}
    ensures PoolOk([p] + free, u, data) && PoolSet([p] + free, u, data) == PoolSet(free, t, data)
  {
    assert FreeSet([p] + free) == FreeSet(free) + {p};
  }

  lemma PoolTaken(free: seq<nat>, t: Tree, data: map<nat, Page>, page: Page)
    requires free != []
    ensures PoolSet(free[1..], t, data[free[0] := page]) == PoolSet(free, t, data)
  {
    assert free == [free[0]] + free[1..];
  }

  lemma PoolCleared(free: seq<nat>, t: Tree, u: Tree, data: map<nat, Page>)
    requires PoolOk(free, t, data) && u.tables.Keys == t.tables.Keys
    ensures PoolOk(free, u, data) && PoolSet(free, u, data) == PoolSet(free, t, data)
  {
    assert forall q :: q in u.tables <==> q in t.tables;
  }

  lemma PoolWrote(free: seq<nat>, t: Tree, u: Tree, data: map<nat, Page>)
    requires u.tables.Keys == t.tables.Keys
    ensures PoolSet(free, u, data) == PoolSet(free, t, data)
  {
  }

  // What walk does when it adds a table.

  lemma GrowSame(t: Tree, p: nat, i: nat, q: nat)
    requires TreeOk(t) && p in t.tables && i < 512 && t.up[p].level > 0 && !t.tables[p][i].valid && q !in t.tables
             && (t.up[p].level == 2 ==> i < 256)
    ensures var u := Grow(t, p, i, q);
            TreeOk(u) && SameMaps(t, u) && SameOthers(t, u, RootOf(t, p)) && RootOf(u, p) == RootOf(t, p)
  {
    GrowOk(t, p, i, q);
    var u := Grow(t, p, i, q);
    forall s: nat, w: nat | IsRoot(t, s) && w < MAXVPN ensures IsRoot(u, s) && Lookup(u, s, w) == Lookup(t, s, w) {
      GrowLookup(t, p, i, q, s, w);
    }
    forall a: nat | a in t.tables ensures a in u.tables && RootOf(u, a) == RootOf(t, a) { GrowRootOf(t, p, i, q, a); }
    assert RootOf(u, q) == RootOf(t, p) by { GrowRootOf(t, p, i, q, p); }
  }

  lemma GrowRootOf(t: Tree, p: nat, i: nat, q: nat, a: nat)
    requires TreeOk(t) && p in t.tables && i < 512 && t.up[p].level > 0 && !t.tables[p][i].valid && q !in t.tables
             && (t.up[p].level == 2 ==> i < 256)
    requires TreeOk(Grow(t, p, i, q)) && a in t.tables
    ensures a in Grow(t, p, i, q).tables && RootOf(Grow(t, p, i, q), a) == RootOf(t, a)
    ensures a == p ==> RootOf(Grow(t, p, i, q), q) == RootOf(t, p)
  {
    assert UpAt(t, a) && UpAt(t, t.up[a].parent);
  }

  lemma OthersTrans(t: Tree, u: Tree, w: Tree, r: nat)
    requires TreeOk(t) && TreeOk(u) && TreeOk(w) && SameOthers(t, u, r) && SameOthers(u, w, r)
    ensures SameOthers(t, w, r)
  {
    hide RootOf, DownAt, UpAt;
    forall q: nat | q in t.tables && RootOf(t, q) != r
      ensures q in w.tables && RootOf(w, q) != r && w.tables[q] == t.tables[q] && w.up[q] == t.up[q]
    {
      assert q in u.tables;
    }
    forall q: nat | q in w.tables && RootOf(w, q) != r ensures q in t.tables && RootOf(t, q) != r {
      assert q in u.tables;
    }
  }

  lemma MapsTrans(t: Tree, u: Tree, w: Tree)
    requires TreeOk(t) && TreeOk(u) && TreeOk(w) && SameMaps(t, u) && SameMaps(u, w)
    ensures SameMaps(t, w)
  {
    hide TreeOk, Lookup;
    forall s: nat, v: nat | IsRoot(t, s) && IsRoot(w, s) && v < MAXVPN ensures Lookup(w, s, v) == Lookup(t, s, v) {
      assert IsRoot(u, s);
      assert Lookup(u, s, v) == Lookup(t, s, v);
    }
  }

  lemma SameUser(t: Tree, u: Tree, data: map<nat, Page>, home: map<nat, Loc>)
    requires UserOk(t, data, home) && TreeOk(u) && SameMaps(t, u)
    ensures UserOk(u, data, home)
  {
    forall r: nat, v: nat ensures OwnedAt(u, data, home, r, v) { assert OwnedAt(t, data, home, r, v); }
    forall q: nat ensures HomeAt(u, data, home, q) { assert HomeAt(t, data, home, q); }
  }

  /** Writing the leaf of v edits the map there and touches only root r's tables. */
  lemma SetLeafEdits(t: Tree, r: nat, v: nat, e: Pte)
    requires TreeOk(t) && IsRoot(t, r) && HasL0(t, r, v) && v < MAXVPN && (!e.valid ==> e == INVALID)
    ensures var u := SetEntry(t, L0(t, r, v), PX(0, v), e);
            TreeOk(u) && Edited(t, u, r, v, e) && SameOthers(t, u, r) && (forall q :: q in u.tables <==> q in t.tables)
  {
    var p := L0(t, r, v);
    SetLeafOk(t, p, PX(0, v), e);
    var u := SetEntry(t, p, PX(0, v), e);
    forall s: nat, w: nat | IsRoot(t, s) && w < MAXVPN
      ensures Lookup(u, s, w) == if s == r && w == v then e else Lookup(t, s, w)
    {
      SetLeafLookup(t, r, v, e, s, w);
    }
    forall q: nat | q in t.tables ensures RootOf(u, q) == RootOf(t, q) {}
    assert RootOf(t, p) == r;
  }

  lemma UserMapped(t: Tree, u: Tree, data: map<nat, Page>, home: map<nat, Loc>, r: nat, v: nat, e: Pte)
    requires UserOk(t, data, home) && IsRoot(t, r) && v < MAXVPN && !Lookup(t, r, v).valid && TreeOk(u)
             && Edited(t, u, r, v, e)
    requires e.valid && !IsPointer(e) && (if v < TRAPFRAME then e.ppn in data && e.ppn !in home else !e.perm.u)
    ensures UserOk(u, data, if v < TRAPFRAME then home[e.ppn := Loc(r, v)] else home)
  {
    var home' := if v < TRAPFRAME then home[e.ppn := Loc(r, v)] else home;
    forall s: nat, w: nat ensures OwnedAt(u, data, home', s, w) { assert OwnedAt(t, data, home, s, w); }
    forall q: nat ensures HomeAt(u, data, home', q) { assert HomeAt(t, data, home, q); }
  }

  lemma UserUnmapped(t: Tree, u: Tree, data: map<nat, Page>, home: map<nat, Loc>, r: nat, v: nat)
    requires UserOk(t, data, home) && IsRoot(t, r) && v < MAXVPN && Lookup(t, r, v).valid && TreeOk(u)
             && Edited(t, u, r, v, INVALID)
    ensures var q := Lookup(t, r, v).ppn;
            UserOk(u, data, if v < TRAPFRAME then home - {q} else home)
            && (v < TRAPFRAME ==> q in data && q in home && home[q] == Loc(r, v))
  {
    assert OwnedAt(t, data, home, r, v);
    var home' := if v < TRAPFRAME then home - {Lookup(t, r, v).ppn} else home;
    forall s: nat, w: nat ensures OwnedAt(u, data, home', s, w) { assert OwnedAt(t, data, home, s, w); }
    forall q: nat ensures HomeAt(u, data, home', q) { assert HomeAt(t, data, home, q); }
  }

  /** Data pages that no mapping owns may come and go, and bytes may change. */
  lemma UserData(t: Tree, data: map<nat, Page>, data': map<nat, Page>, home: map<nat, Loc>)
    requires UserOk(t, data, home) && forall q :: q in home ==> q in data'
    ensures UserOk(t, data', home)
  {
    forall s: nat, w: nat ensures OwnedAt(t, data', home, s, w) { assert OwnedAt(t, data, home, s, w); }
    forall q: nat ensures HomeAt(t, data', home, q) { assert HomeAt(t, data, home, q); }
  }

  lemma HomesAreData(t: Tree, data: map<nat, Page>, home: map<nat, Loc>)
    requires UserOk(t, data, home)
    ensures forall q :: q in home ==> q in data
  {
    forall q: nat | q in home ensures q in data { assert HomeAt(t, data, home, q); }
  }

  // The pool.

  lemma PoolPop(freelist: seq<nat>, t: Tree, data: map<nat, Page>, page: Page)
    requires PoolOk(freelist, t, data) && freelist != []
    ensures PoolOk(freelist[1..], t, data[freelist[0] := page])
    ensures FreeSet(freelist) == FreeSet(freelist[1..]) + {freelist[0]} && freelist[0] !in FreeSet(freelist[1..])
  {
    assert freelist == [freelist[0]] + freelist[1..];
  }

  lemma PoolPush(freelist: seq<nat>, t: Tree, data: map<nat, Page>, p: nat)
    requires PoolOk(freelist, t, data) && p in data
    ensures PoolOk([p] + freelist, t, data - {p}) && FreeSet([p] + freelist) == FreeSet(freelist) + {p}
  {
  }

  /** A data page becomes a table. */
  lemma PoolGrow(freelist: seq<nat>, t: Tree, u: Tree, data: map<nat, Page>, q: nat)
    requires PoolOk(freelist, t, data) && q in data && (forall a :: a in u.tables <==> a in t.tables || a == q)
    ensures PoolOk(freelist, u, data - {q})
  {
  }

  /** From t to u, tables were added to root r's tree out of the free list, and no mapping changed. */
  ghost predicate Walked(t: Tree, free: seq<nat>, u: Tree, free': seq<nat>, r: nat) {
    && TreeOk(t) && TreeOk(u) && SameMaps(t, u) && SameOthers(t, u, r)
    && (forall data: map<nat, Page> {:trigger PoolSet(free', u, data)} ::
        PoolSet(free', u, data) == PoolSet(free, t, data))
    && (forall q :: q in t.tables ==> q in u.tables && u.up[q] == t.up[q])
  }

  lemma WalkedNowhere(t: Tree, free: seq<nat>, r: nat)
    requires TreeOk(t)
    ensures Walked(t, free, t, free, r)
  {
  }

  lemma WalkedTrans(t: Tree, f: seq<nat>, u: Tree, g: seq<nat>, w: Tree, h: seq<nat>, r: nat)
    requires Walked(t, f, u, g, r) && Walked(u, g, w, h, r)
    ensures Walked(t, f, w, h, r)
  {
    MapsTrans(t, u, w);
    OthersTrans(t, u, w, r);
  }

  /** Where walk is: page is the one of v's path at a level. */
  ghost predicate OnPath(t: Tree, root: nat, v: nat, level: nat, page: nat)
    requires Shape(t)
  {
    && IsRoot(t, root) && page in t.tables && level <= 2
    && if level == 2 then page == root
       else if level == 1 then t.up[page] == Link(1, root, PX(2, v))
       else var q := t.up[page].parent; t.up[page] == Link(0, q, PX(1, v)) && q in t.tables
                                        && t.up[q] == Link(1, root, PX(2, v))
  }

  lemma WalkedOn(t: Tree, f: seq<nat>, u: Tree, g: seq<nat>, root: nat, v: nat, level: nat, page: nat, q: nat)
    requires Walked(t, f, u, g, root) && 0 < level <= 2 && OnPath(t, root, v, level, page)
    requires q in u.tables && u.up[q] == Link(level - 1, page, PX(level, v))
    ensures OnPath(u, root, v, level - 1, q)
  {
    assert UpAt(t, page);
  }

  lemma OnPathBelow(t: Tree, root: nat, v: nat, level: nat, page: nat)
    requires TreeOk(t) && OnPath(t, root, v, level, page)
    ensures t.up[page].level == level && RootOf(t, page) == root
    ensures level == 0 ==> HasL0(t, root, v) && L0(t, root, v) == page
    ensures level == 1 ==> (HasL0(t, root, v) <==> t.tables[page][PX(1, v)].valid)
    ensures level == 2 && !t.tables[page][PX(2, v)].valid ==> !HasL0(t, root, v)
  {
    assert UpAt(t, page) && UpAt(t, t.up[page].parent);
  }

  /** A table made of the first free page. */
  lemma WalkedGrow(t: Tree, free: seq<nat>, data: map<nat, Page>, home: map<nat, Loc>, p: nat, i: nat)
    requires PoolOk(free, t, data) && UserOk(t, data, home) && free != [] && p in t.tables && i < 512
             && t.up[p].level > 0 && !t.tables[p][i].valid
    requires t.up[p].level == 2 ==> i < 256
    ensures var q := free[0]; var u := Grow(t, p, i, q);
            && Walked(t, free, u, free[1..], RootOf(t, p)) && PoolOk(free[1..], u, data) && UserOk(u, data, home)
               && RootOf(u, p) == RootOf(t, p)
  {
    var q := free[0];
    PoolPop(free, t, data, Filled(5));
    GrowSame(t, p, i, q);
    SameUser(t, Grow(t, p, i, q), data, home);
    PoolGrow(free[1..], t, Grow(t, p, i, q), data[q := Filled(5)], q);
    assert data[q := Filled(5)] - {q} == data;
    hide UserOk, TreeOk, SameMaps, SameOthers, PoolOk, FreeSet, RootOf;
  }

  // Changes confined to a range of one root's pages.

  ghost predicate InRange(l: Loc, r: nat, lo: nat, hi: nat) { l.root == r && lo <= l.vpn < hi }

  /** The maps differ at most in pages lo to hi - 1 of root r, and only r's tables do. */
  ghost predicate OnlyPages(t: Tree, u: Tree, r: nat, lo: nat, hi: nat) {
    && TreeOk(t) && TreeOk(u) && SameRoots(t, u) && SameOthers(t, u, r)
    && forall s: nat, w: nat {:trigger Lookup(u, s, w)} ::
         IsRoot(t, s) && IsRoot(u, s) && w < MAXVPN && !InRange(Loc(s, w), r, lo, hi) ==>
           Lookup(u, s, w) == Lookup(t, s, w)
  }

  lemma OnlyTrans(t: Tree, u: Tree, w: Tree, r: nat, lo: nat, hi: nat)
    requires OnlyPages(t, u, r, lo, hi) && OnlyPages(u, w, r, lo, hi)
    ensures OnlyPages(t, w, r, lo, hi)
  {
    OthersTrans(t, u, w, r);
    hide TreeOk, Lookup, SameOthers;
    forall s: nat, v: nat | IsRoot(t, s) && IsRoot(w, s) && v < MAXVPN && !InRange(Loc(s, v), r, lo, hi)
      ensures Lookup(w, s, v) == Lookup(t, s, v)
    {
      assert IsRoot(u, s);
      assert Lookup(u, s, v) == Lookup(t, s, v);
    }
  }

  lemma OnlyWider(t: Tree, u: Tree, r: nat, lo: nat, hi: nat, lo': nat, hi': nat)
    requires OnlyPages(t, u, r, lo, hi) && lo' <= lo && hi <= hi'
    ensures OnlyPages(t, u, r, lo', hi')
  {
    hide TreeOk, Lookup, SameOthers;
  }

  lemma EditedIsOnly(t: Tree, u: Tree, r: nat, v: nat, e: Pte)
    requires TreeOk(t) && TreeOk(u) && Edited(t, u, r, v, e) && SameOthers(t, u, r)
    ensures OnlyPages(t, u, r, v, v + 1)
  {
    hide TreeOk, Lookup, SameOthers;
  }

  lemma WalkedIsOnly(t: Tree, f: seq<nat>, u: Tree, g: seq<nat>, r: nat)
    requires Walked(t, f, u, g, r)
    ensures forall v: nat :: OnlyPages(t, u, r, v, v)
  {
    hide TreeOk, Lookup, SameOthers;
  }

  /** No change in a range that is empty on both sides is no change at all. */
  lemma OnlyEmpty(t: Tree, u: Tree, r: nat, lo: nat, hi: nat)
    requires OnlyPages(t, u, r, lo, hi) && hi <= MAXVPN && AllEmpty(t, r, lo, hi) && AllEmpty(u, r, lo, hi)
    ensures SameMaps(t, u)
  {
    hide TreeOk, Lookup, SameOthers;
  }

  /** All that writing a new leaf does. */
  lemma MapSummary(t: Tree, free: seq<nat>, data: map<nat, Page>, home: map<nat, Loc>, r: nat, v: nat, e: Pte)
    requires PoolOk(free, t, data) && UserOk(t, data, home) && IsRoot(t, r) && v < MAXVPN && HasL0(t, r, v)
             && !Lookup(t, r, v).valid
    requires e.valid && !IsPointer(e) && (if v < TRAPFRAME then e.ppn in data && e.ppn !in home else !e.perm.u)
    ensures var u := SetEntry(t, L0(t, r, v), PX(0, v), e);
            && PoolOk(free, u, data) && UserOk(u, data, if v < TRAPFRAME then home[e.ppn := Loc(r, v)] else home)
            && TreeOk(u) && OnlyPages(t, u, r, v, v + 1) && IsRoot(u, r) && Lookup(u, r, v) == e
               && u.tables.Keys == t.tables.Keys
  {
    SetLeafEdits(t, r, v, e);
    var u := SetEntry(t, L0(t, r, v), PX(0, v), e);
    assert IsRoot(u, r) && Lookup(u, r, v) == e;
    EditedIsOnly(t, u, r, v, e);
    UserMapped(t, u, data, home, r, v, e);
    hide UserOk, OnlyPages, Edited, SameOthers, TreeOk, UserOk;
  }

  /** All that clearing a leaf does. */
  lemma UnmapSummary(t: Tree, free: seq<nat>, data: map<nat, Page>, home: map<nat, Loc>, r: nat, v: nat)
    requires PoolOk(free, t, data) && UserOk(t, data, home) && IsRoot(t, r) && v < MAXVPN && Lookup(t, r, v).valid
    ensures HasL0(t, r, v)
    ensures var u := SetEntry(t, L0(t, r, v), PX(0, v), INVALID); var q := Lookup(t, r, v).ppn;
            && PoolOk(free, u, data) && UserOk(u, data, if v < TRAPFRAME then home - {q} else home)
            && (v < TRAPFRAME ==> q in data && q in home && home[q] == Loc(r, v))
            && TreeOk(u) && OnlyPages(t, u, r, v, v + 1) && IsRoot(u, r) && Lookup(u, r, v) == INVALID
               && u.tables.Keys == t.tables.Keys
  {
    SetLeafEdits(t, r, v, INVALID);
    var u := SetEntry(t, L0(t, r, v), PX(0, v), INVALID);
    assert IsRoot(u, r) && Lookup(u, r, v) == INVALID;
    EditedIsOnly(t, u, r, v, INVALID);
    UserUnmapped(t, u, data, home, r, v);
    hide UserOk, OnlyPages, Edited, SameOthers, TreeOk, UserOk;
  }

  lemma WalkedSummary(t: Tree, f: seq<nat>, u: Tree, g: seq<nat>, r: nat, v: nat)
    requires Walked(t, f, u, g, r) && IsRoot(t, r) && v < MAXVPN
    ensures IsRoot(u, r) && Lookup(u, r, v) == Lookup(t, r, v) && OnlyPages(t, u, r, v, v + 1)
    ensures forall data: map<nat, Page> {:trigger PoolSet(g, u, data)} :: PoolSet(g, u, data) == PoolSet(f, t, data)
  {
    WalkedIsOnly(t, f, u, g, r);
    OnlyWider(t, u, r, v, v, v, v + 1);
  }

  lemma OnlyJoin(t: Tree, u: Tree, w: Tree, r: nat, lo: nat, a: nat)
    requires lo <= a && OnlyPages(t, u, r, lo, a) && OnlyPages(u, w, r, a, a + 1)
    ensures OnlyPages(t, w, r, lo, a + 1)
  {
    OnlyWider(t, u, r, lo, a, lo, a + 1);
    OnlyWider(u, w, r, a, a + 1, lo, a + 1);
    OnlyTrans(t, u, w, r, lo, a + 1);
  }

  lemma OnlyNothing(t: Tree, r: nat, v: nat)
    requires TreeOk(t)
    ensures OnlyPages(t, t, r, v, v)
  {
  }

  lemma OnlyIsOthers(t: Tree, u: Tree, r: nat, lo: nat, hi: nat)
    requires OnlyPages(t, u, r, lo, hi)
    ensures TreeOk(t) && TreeOk(u) && SameRoots(t, u) && SameOthers(t, u, r)
  {
  }

  /** Reading outside the range. */
  lemma OnlyOutside(t: Tree, u: Tree, r: nat, lo: nat, hi: nat, s: nat, w: nat)
    requires OnlyPages(t, u, r, lo, hi) && (IsRoot(t, s) || IsRoot(u, s)) && w < MAXVPN && !(s == r && lo <= w < hi)
    ensures IsRoot(t, s) && IsRoot(u, s) && Lookup(u, s, w) == Lookup(t, s, w)
  {
  }

  ghost predicate AllMapped(t: Tree, r: nat, lo: nat, hi: nat) {
    TreeOk(t) && IsRoot(t, r) && forall w: nat :: lo <= w < hi ==> Lookup(t, r, w).valid
  }

  ghost predicate AllEmpty(t: Tree, r: nat, lo: nat, hi: nat) {
    TreeOk(t) && IsRoot(t, r) && forall w: nat :: lo <= w < hi ==> Lookup(t, r, w) == INVALID
  }

  lemma EmptyMore(t: Tree, u: Tree, r: nat, lo: nat, a: nat)
    requires lo <= a < MAXVPN && AllEmpty(t, r, lo, a) && OnlyPages(t, u, r, a, a + 1) && IsRoot(u, r)
             && Lookup(u, r, a) == INVALID
    ensures AllEmpty(u, r, lo, a + 1)
  {
    hide Lookup;
    forall w: nat | lo <= w < a + 1 ensures Lookup(u, r, w) == INVALID {
      if w < a { OnlyOutside(t, u, r, a, a + 1, r, w); }
    }
  }

  /** Whether page q is owned by the range. */
  ghost predicate Owned(home: map<nat, Loc>, q: nat, r: nat, lo: nat, hi: nat) {
    q in home && InRange(home[q], r, lo, hi)
  }

  /** The range's pages, and no others, are no longer owned, and are gone from data if freed. */
  ghost predicate Released(h: map<nat, Loc>, d: map<nat, Page>, h': map<nat, Loc>, d': map<nat, Page>, r: nat, lo: nat,
                           hi: nat, free: bool) {
    && (forall q {:trigger q in h'} {:trigger q in h} :: q in h' <==> q in h && !Owned(h, q, r, lo, hi))
    && (forall q {:trigger h'[q]} :: q in h' ==> h'[q] == h[q])
    && (forall q {:trigger q in d'} {:trigger q in d} :: q in d' <==> q in d && !(free && Owned(h, q, r, lo, hi)))
    && (forall q {:trigger d'[q]} :: q in d' ==> d'[q] == d[q])
  }

  lemma ReleasedNone(h: map<nat, Loc>, d: map<nat, Page>, r: nat, v: nat, free: bool)
    ensures Released(h, d, h, d, r, v, v, free)
  {
  }

  lemma ReleasedMore(h: map<nat, Loc>, d: map<nat, Page>, h1: map<nat, Loc>, d1: map<nat, Page>, h2: map<nat, Loc>,
                     d2: map<nat, Page>, r: nat, lo: nat, a: nat, free: bool)
    requires lo <= a && Released(h, d, h1, d1, r, lo, a, free) && Released(h1, d1, h2, d2, r, a, a + 1, free)
    ensures Released(h, d, h2, d2, r, lo, a + 1, free)
  {
  }

  /** Page v of root r owns at most the page it is mapped to. */
  lemma ReleasedOne(t: Tree, data: map<nat, Page>, home: map<nat, Loc>, r: nat, v: nat, free: bool)
    requires UserOk(t, data, home) && IsRoot(t, r) && v < MAXVPN && Lookup(t, r, v).valid
    ensures var q := Lookup(t, r, v).ppn;
            Released(home, data, if v < TRAPFRAME then home - {q} else home, if free && v < TRAPFRAME then data - {q}
                     else data, r, v, v + 1, free)
  {
    var q := Lookup(t, r, v).ppn;
    assert OwnedAt(t, data, home, r, v);
    forall a: nat | a in home && Owned(home, a, r, v, v + 1) ensures a == q && v < TRAPFRAME {
      assert HomeAt(t, data, home, a);
    }
  }

  datatype Space = Space(t: Tree, data: map<nat, Page>, home: map<nat, Loc>)

  /** From s to u, pages lo to hi - 1 of root r were unmapped, and nothing else happened. */
  ghost predicate Unmapped(s: Space, u: Space, r: nat, lo: nat, hi: nat, free: bool) {
    OnlyPages(s.t, u.t, r, lo, hi) && AllEmpty(u.t, r, lo, hi)
    && Released(s.home, s.data, u.home, u.data, r, lo, hi, free)
  }

  lemma UnmappedNone(s: Space, r: nat, v: nat, free: bool)
    requires TreeOk(s.t) && IsRoot(s.t, r)
    ensures Unmapped(s, s, r, v, v, free)
  {
    OnlyNothing(s.t, r, v);
    ReleasedNone(s.home, s.data, r, v, free);
  }

  lemma UnmappedMore(s: Space, u: Space, w: Space, r: nat, lo: nat, a: nat, free: bool)
    requires lo <= a < MAXVPN && Unmapped(s, u, r, lo, a, free) && Unmapped(u, w, r, a, a + 1, free)
    ensures Unmapped(s, w, r, lo, a + 1, free)
  {
    hide OnlyPages, Released, TreeOk;
    OnlyJoin(s.t, u.t, w.t, r, lo, a);
    EmptyMore(u.t, w.t, r, lo, a);
    ReleasedMore(s.home, s.data, u.home, u.data, w.home, w.data, r, lo, a, free);
  }

  lemma StillMapped(s: Space, u: Space, r: nat, lo: nat, a: nat, hi: nat, free: bool)
    requires Unmapped(s, u, r, lo, a, free) && lo <= a < hi <= MAXVPN && AllMapped(s.t, r, lo, hi)
    ensures IsRoot(u.t, r) && TreeOk(u.t) && Lookup(u.t, r, a).valid
  {
    OnlyOutside(s.t, u.t, r, lo, a, r, a);
  }

  /** Page w may be mapped to page q: a user page to a data page nobody owns, the others not for users. */
  ghost predicate CanMap(data: map<nat, Page>, home: map<nat, Loc>, w: nat, q: nat, perm: Perm) {
    if w < TRAPFRAME then q in data && q !in home else !perm.u
  }

  /** The owners after pages v to v + k - 1 are mapped to pages ppn to ppn + k - 1. */
  ghost function Homes(home: map<nat, Loc>, r: nat, v: nat, ppn: nat, k: nat): (h: map<nat, Loc>) {
    if k == 0 then home
    else if v + k - 1 < TRAPFRAME then Homes(home, r, v, ppn, k - 1)[ppn + k - 1 := Loc(r, v + k - 1)]
    else Homes(home, r, v, ppn, k - 1)
  }

  lemma {:induction false} HomesKeys(home: map<nat, Loc>, r: nat, v: nat, ppn: nat, k: nat, q: nat)
    ensures q in Homes(home, r, v, ppn, k) ==> q in home || ppn <= q < ppn + k
    decreases k
  {
    if k > 0 { HomesKeys(home, r, v, ppn, k - 1, q); }
  }

  /** Pages v to v + n - 1 of r: the first k mapped to ppn onwards, the others as in t. */
  ghost predicate MappedUpTo(t: Tree, u: Tree, r: nat, v: nat, n: nat, ppn: nat, perm: Perm, k: nat)
    requires TreeOk(t) && IsRoot(t, r)
  {
    && OnlyPages(t, u, r, v, v + n) && IsRoot(u, r) && k <= n
    && forall w: nat :: v <= w < v + n ==>
         Lookup(u, r, w) == if w < v + k then Pte(true, ppn + w - v, perm) else Lookup(t, r, w)
  }

  lemma HomesNone(home: map<nat, Loc>, r: nat, v: nat, ppn: nat)
    ensures Homes(home, r, v, ppn, 0) == home
  {
  }

  lemma HomesNext(home: map<nat, Loc>, r: nat, v: nat, ppn: nat, k: nat)
    ensures Homes(home, r, v, ppn, k + 1) ==
            if v + k < TRAPFRAME then Homes(home, r, v, ppn, k)[ppn + k := Loc(r, v + k)] else Homes(home, r, v, ppn, k)
  {
  }

  lemma MappedNone(t: Tree, r: nat, v: nat, n: nat, ppn: nat, perm: Perm)
    requires TreeOk(t) && IsRoot(t, r)
    ensures MappedUpTo(t, t, r, v, n, ppn, perm, 0)
  {
    OnlyNothing(t, r, v);
    OnlyWider(t, t, r, v, v, v, v + n);
  }

  lemma MappedMore(t: Tree, u: Tree, w: Tree, r: nat, v: nat, n: nat, ppn: nat, perm: Perm, k: nat, done: bool)
    requires TreeOk(t) && IsRoot(t, r) && v + n <= MAXVPN && k < n && MappedUpTo(t, u, r, v, n, ppn, perm, k)
    requires OnlyPages(u, w, r, v + k, v + k + 1) && IsRoot(w, r)
    requires Lookup(w, r, v + k) == if done then Pte(true, ppn + k, perm) else Lookup(u, r, v + k)
    ensures MappedUpTo(t, w, r, v, n, ppn, perm, if done then k + 1 else k)
  {
    hide DownAt, UpAt, Lookup, RootOf, SameOthers, SameRoots;
    OnlyWider(u, w, r, v + k, v + k + 1, v, v + n);
    OnlyTrans(t, u, w, r, v, v + n);
    forall x: nat | v <= x < v + n && x != v + k ensures Lookup(w, r, x) == Lookup(u, r, x) {
      OnlyOutside(u, w, r, v + k, v + k + 1, r, x);
    }
  }

  // Growing an address space, and undoing that.

  /** From s to u, page v of r was mapped to a new page with the given contents. */
  ghost predicate Added(s: Space, u: Space, r: nat, v: nat, page: Page, perm: Perm) {
    && OnlyPages(s.t, u.t, r, v, v + 1) && IsRoot(u.t, r)
       && (forall a {:trigger s.home[a]} :: a in s.home ==> s.home[a] != Loc(r, v))
    && var q := Lookup(u.t, r, v).ppn;
       && Lookup(u.t, r, v) == Pte(true, q, perm) && q !in s.data && q !in s.home
       && (forall a {:trigger a in u.data} {:trigger a in s.data} :: a in u.data <==> a in s.data || a == q)
       && (forall a {:trigger u.data[a]} :: a in u.data ==> u.data[a] == if a == q then page else s.data[a])
       && (forall a {:trigger a in u.home} {:trigger a in s.home} :: a in u.home <==> a in s.home || a == q)
       && (forall a {:trigger u.home[a]} :: a in u.home ==> u.home[a] == if a == q then Loc(r, v) else s.home[a])
  }

  /** No mapping, owner or byte differs; r may have more tables. */
  ghost predicate Restored(s: Space, u: Space, r: nat) {
    TreeOk(s.t) && TreeOk(u.t) && SameMaps(s.t, u.t) && SameOthers(s.t, u.t, r) && u.data == s.data && u.home == s.home
  }

  /** From s to u, pages lo to hi - 1 of r were mapped to new pages. */
  ghost predicate Extended(s: Space, u: Space, r: nat, lo: nat, hi: nat) {
    OnlyPages(s.t, u.t, r, lo, hi) && AllMapped(u.t, r, lo, hi)
    && Released(u.home, u.data, s.home, s.data, r, lo, hi, true)
  }

  lemma ExtendedNone(s: Space, r: nat, v: nat)
    requires TreeOk(s.t) && IsRoot(s.t, r)
    ensures Extended(s, s, r, v, v)
  {
    OnlyNothing(s.t, r, v);
    ReleasedNone(s.home, s.data, r, v, true);
  }

  lemma ExtendedMore(s: Space, u: Space, w: Space, r: nat, lo: nat, a: nat, page: Page, perm: Perm)
    requires lo <= a < MAXVPN && Extended(s, u, r, lo, a) && Added(u, w, r, a, page, perm)
    ensures Extended(s, w, r, lo, a + 1)
  {
    hide DownAt, UpAt, Lookup, RootOf, SameOthers, SameRoots, Released;
    OnlyJoin(s.t, u.t, w.t, r, lo, a);
    forall x: nat | lo <= x < a + 1 ensures Lookup(w.t, r, x).valid {
      if x < a { OnlyOutside(u.t, w.t, r, a, a + 1, r, x); }
    }
    AddedReleased(s, u, w, r, lo, a, page, perm);
  }

  lemma AddedReleased(s: Space, u: Space, w: Space, r: nat, lo: nat, a: nat, page: Page, perm: Perm)
    requires lo <= a < MAXVPN && Released(u.home, u.data, s.home, s.data, r, lo, a, true)
             && Added(u, w, r, a, page, perm)
    ensures Released(w.home, w.data, s.home, s.data, r, lo, a + 1, true)
  {
    hide OnlyPages, TreeOk, Lookup;
  }

  lemma ExtendedStill(s: Space, u: Space, w: Space, r: nat, lo: nat, a: nat)
    requires Extended(s, u, r, lo, a) && Restored(u, w, r) && a <= MAXVPN
    ensures Extended(s, w, r, lo, a)
  {
    OthersTrans(s.t, u.t, w.t, r);
    hide SameOthers, TreeOk, Lookup, Released;
    forall x: nat, v: nat | IsRoot(s.t, x) && IsRoot(w.t, x) && v < MAXVPN && !InRange(Loc(x, v), r, lo, a)
      ensures Lookup(w.t, x, v) == Lookup(s.t, x, v)
    {
      assert IsRoot(u.t, x) && Lookup(u.t, x, v) == Lookup(s.t, x, v);
    }
  }

  /** Unmapping what was added gives back what there was. */
  lemma Undone(s: Space, u: Space, w: Space, r: nat, lo: nat, hi: nat)
    requires lo <= hi <= MAXVPN && AllEmpty(s.t, r, lo, hi) && Extended(s, u, r, lo, hi)
             && Unmapped(u, w, r, lo, hi, true)
    ensures Restored(s, w, r)
  {
    OnlyTrans(s.t, u.t, w.t, r, lo, hi);
    OnlyEmpty(s.t, w.t, r, lo, hi);
  }

  lemma NoHome(t: Tree, data: map<nat, Page>, home: map<nat, Loc>, r: nat, v: nat)
    requires UserOk(t, data, home) && IsRoot(t, r) && !Lookup(t, r, v).valid
    ensures forall a {:trigger home[a]} :: a in home ==> home[a] != Loc(r, v)
  {
    forall a: nat | a in home ensures home[a] != Loc(r, v) { assert HomeAt(t, data, home, a); }
  }

  lemma RestoredSame(s: Space, r: nat)
    requires TreeOk(s.t)
    ensures Restored(s, s, r)
  {
  }

  lemma RestoredByFree(s: Space, u: Space, r: nat, v: nat, ppn: nat, perm: Perm)
    requires TreeOk(s.t) && IsRoot(s.t, r) && v < MAXVPN && MappedUpTo(s.t, u.t, r, v, 1, ppn, perm, 0)
             && u.data == s.data && u.home == s.home
    ensures Restored(s, u, r)
  {
    hide DownAt, UpAt, Lookup, SameOthers;
  }

  lemma PoolContents(free: seq<nat>, t: Tree, data: map<nat, Page>, q: nat, page: Page)
    requires PoolOk(free, t, data) && q in data
    ensures PoolOk(free, t, data[q := page]) && PoolSet(free, t, data[q := page]) == PoolSet(free, t, data)
  {
  }

  /** PGROUNDUP(sz) / PGSIZE. */
  function Pages(sz: nat): (n: nat)
    ensures n * PGSIZE >= sz && (n > 0 ==> (n - 1) * PGSIZE < sz)
  {
    (sz + PGSIZE - 1) / PGSIZE
  }

  /** Pages lo to hi - 1 of r have the given permissions and are all zeroes. */
  ghost predicate Zeroed(u: Space, r: nat, lo: nat, hi: nat, perm: Perm) {
    && TreeOk(u.t) && IsRoot(u.t, r)
    && forall w: nat {:trigger Lookup(u.t, r, w)} :: lo <= w < hi ==>
         var e := Lookup(u.t, r, w); e.valid && e.perm == perm && e.ppn in u.data && u.data[e.ppn] == Filled(0)
  }

  lemma ZeroedNone(u: Space, r: nat, lo: nat, perm: Perm)
    requires TreeOk(u.t) && IsRoot(u.t, r)
    ensures Zeroed(u, r, lo, lo, perm)
  {
  }

  lemma StillEmpty(s: Space, u: Space, r: nat, lo: nat, a: nat, hi: nat)
    requires Extended(s, u, r, lo, a) && lo <= a < hi <= MAXVPN && AllEmpty(s.t, r, lo, hi)
    ensures TreeOk(u.t) && IsRoot(u.t, r) && !Lookup(u.t, r, a).valid
  {
    OnlyOutside(s.t, u.t, r, lo, a, r, a);
  }

  lemma UndoneNone(s: Space, u: Space, r: nat, lo: nat, a: nat)
    requires Extended(s, u, r, lo, a) && lo >= a
    ensures Restored(s, u, r)
  {
  }

  lemma ExtendedMapped(s: Space, u: Space, r: nat, lo: nat, hi: nat)
    requires Extended(s, u, r, lo, hi)
    ensures AllMapped(u.t, r, lo, hi)
  {
  }

  lemma ZeroedMore(u: Space, w: Space, r: nat, lo: nat, a: nat, perm: Perm)
    requires lo <= a < MAXVPN && Zeroed(u, r, lo, a, perm) && Added(u, w, r, a, Filled(0), perm)
    ensures Zeroed(w, r, lo, a + 1, perm)
  {
    hide DownAt, UpAt, Lookup, SameOthers, SameRoots;
    forall x: nat | lo <= x < a ensures Lookup(w.t, r, x) == Lookup(u.t, r, x) {
      OnlyOutside(u.t, w.t, r, a, a + 1, r, x);
    }
  }

  /** The first n pages of `new` have the contents and permissions of those of `old`. */
  ghost predicate Copied(u: Space, old': nat, new': nat, n: nat) {
    && TreeOk(u.t) && IsRoot(u.t, old') && IsRoot(u.t, new')
    && forall w: nat {:trigger Lookup(u.t, new', w)} :: w < n ==>
         var e := Lookup(u.t, old', w); var f := Lookup(u.t, new', w);
         e.valid && f.valid && f.perm == e.perm && e.ppn in u.data && f.ppn in u.data && u.data[f.ppn] == u.data[e.ppn]
  }

  lemma CopiedMore(u: Space, w: Space, old': nat, new': nat, a: nat, page: Page, perm: Perm)
    requires a < MAXVPN && old' != new' && Copied(u, old', new', a) && Added(u, w, new', a, page, perm)
    requires Lookup(u.t, old', a).valid && Lookup(u.t, old', a).perm == perm && Lookup(u.t, old', a).ppn in u.data
             && u.data[Lookup(u.t, old', a).ppn] == page
    ensures Copied(w, old', new', a + 1)
  {
    hide DownAt, UpAt, Lookup, SameOthers, SameRoots;
    OnlyOutside(u.t, w.t, new', a, a + 1, old', a);
    forall x: nat | x < a
      ensures Lookup(w.t, new', x) == Lookup(u.t, new', x) && Lookup(w.t, old', x) == Lookup(u.t, old', x)
    {
      OnlyOutside(u.t, w.t, new', a, a + 1, new', x);
      OnlyOutside(u.t, w.t, new', a, a + 1, old', x);
    }
  }

  /** No two user mappings share a page. */
  lemma UserPagesDiffer(u: Space, r: nat, v: nat, s: nat, w: nat)
    requires UserOk(u.t, u.data, u.home) && IsRoot(u.t, r) && IsRoot(u.t, s) && v < TRAPFRAME && w < TRAPFRAME
    requires Lookup(u.t, r, v).valid && Lookup(u.t, s, w).valid && Lookup(u.t, r, v).ppn == Lookup(u.t, s, w).ppn
    ensures r == s && v == w
  {
    assert OwnedAt(u.t, u.data, u.home, r, v) && OwnedAt(u.t, u.data, u.home, s, w);
  }

  lemma CopiedNone(u: Space, old': nat, new': nat)
    requires TreeOk(u.t) && IsRoot(u.t, old') && IsRoot(u.t, new')
    ensures Copied(u, old', new', 0)
  {
  }

  /** Mapping pages of another root leaves the parent's mappings alone. */
  lemma ParentStill(s: Space, u: Space, old': nat, new': nat, a: nat, n: nat)
    requires Extended(s, u, new', 0, a) && old' != new' && a < n <= MAXVPN && AllMapped(s.t, old', 0, n)
    ensures TreeOk(u.t) && IsRoot(u.t, old') && Lookup(u.t, old', a).valid
  {
    OnlyOutside(s.t, u.t, new', 0, a, old', a);
  }

  lemma LeafOwned(u: Space, r: nat, v: nat)
    requires UserOk(u.t, u.data, u.home) && IsRoot(u.t, r) && v < TRAPFRAME && Lookup(u.t, r, v).valid
    ensures Lookup(u.t, r, v).ppn in u.data && !IsPointer(Lookup(u.t, r, v)) && Lookup(u.t, r, v).ppn in u.home
            && u.home[Lookup(u.t, r, v).ppn] == Loc(r, v)
  {
    assert OwnedAt(u.t, u.data, u.home, r, v);
  }

  lemma EmptyPart(t: Tree, r: nat, lo: nat, a: nat, hi: nat)
    requires AllEmpty(t, r, lo, hi) && a <= hi
    ensures AllEmpty(t, r, lo, a)
  {
  }

  /** Unmapping the trampoline or the trapframe changes no owner and no data. */
  lemma FrameOwnsNothing(s: Space, u: Space, r: nat, v: nat)
    requires UserOk(s.t, s.data, s.home) && v >= TRAPFRAME && Unmapped(s, u, r, v, v + 1, false)
    ensures u.home == s.home && u.data == s.data
  {
    forall q: nat | q in s.home ensures !Owned(s.home, q, r, v, v + 1) { assert HomeAt(s.t, s.data, s.home, q); }
  }

  lemma UnmappedElsewhere(s: Space, u: Space, r: nat, lo: nat, hi: nat, free: bool, a: nat, b: nat)
    requires Unmapped(s, u, r, lo, hi, free) && b <= MAXVPN && (b <= lo || hi <= a)
    ensures AllEmpty(s.t, r, a, b) ==> AllEmpty(u.t, r, a, b)
    ensures AllMapped(s.t, r, a, b) ==> AllMapped(u.t, r, a, b)
  {
    hide Lookup, DownAt, UpAt, Released;
    forall w: nat | a <= w < b && IsRoot(s.t, r) ensures Lookup(u.t, r, w) == Lookup(s.t, r, w) {
      OnlyOutside(s.t, u.t, r, lo, hi, r, w);
    }
  }

  lemma EmptyJoin(t: Tree, r: nat, lo: nat, a: nat, hi: nat)
    requires AllEmpty(t, r, lo, a) && AllEmpty(t, r, a, hi)
    ensures AllEmpty(t, r, lo, hi)
  {
  }

  /** Same tables, same data, same pool: same free pages. */
  lemma SameFree(f: seq<nat>, g: seq<nat>, t: Tree, data: map<nat, Page>)
    requires PoolOk(f, t, data) && PoolOk(g, t, data) && PoolSet(f, t, data) == PoolSet(g, t, data)
    ensures FreeSet(f) == FreeSet(g)
  {
    forall q ensures q in FreeSet(f) <==> q in FreeSet(g) {
      assert q in PoolSet(f, t, data) <==> q in PoolSet(g, t, data);
    }
  }

  lemma HomesHigh(home: map<nat, Loc>, r: nat, v: nat, ppn: nat, k: nat)
    requires v >= TRAPFRAME && k <= 1
    ensures Homes(home, r, v, ppn, k) == home
  {
  }

  /** A page of a new root mapped, or not: the rest of it stays empty. */
  lemma MappedElsewhere(t: Tree, u: Tree, r: nat, v: nat, ppn: nat, perm: Perm, k: nat, a: nat, b: nat)
    requires TreeOk(t) && IsRoot(t, r) && v < MAXVPN && MappedUpTo(t, u, r, v, 1, ppn, perm, k) && b <= MAXVPN
             && AllEmpty(t, r, a, b)
    requires k == 0 || b <= v || v + 1 <= a
    ensures AllEmpty(u, r, a, b) && TreeOk(u) && IsRoot(u, r) && SameOthers(t, u, r)
    ensures Lookup(u, r, v) == if k == 1 then Pte(true, ppn, perm) else Lookup(t, r, v)
  {
    hide Lookup, DownAt, UpAt, SameOthers;
    forall w: nat | a <= w < b ensures Lookup(u, r, w) == INVALID {
      if w != v { OnlyOutside(t, u, r, v, v + 1, r, w); }
    }
  }

  lemma EmptyTail(t: Tree, r: nat, lo: nat, a: nat, b: nat, hi: nat)
    requires AllEmpty(t, r, lo, hi) && lo <= a && b <= hi
    ensures AllEmpty(t, r, a, b)
  {
  }

  lemma EmptyHere(t: Tree, r: nat, v: nat, hi: nat)
    requires AllEmpty(t, r, v, hi) && v < hi
    ensures !Lookup(t, r, v).valid
  {
  }

  lemma MappedReads(t: Tree, u: Tree, r: nat, v: nat, ppn: nat, perm: Perm, k: nat, w: nat)
    requires TreeOk(t) && IsRoot(t, r) && v < MAXVPN && MappedUpTo(t, u, r, v, 1, ppn, perm, k) && w < MAXVPN && w != v
    ensures TreeOk(u) && IsRoot(u, r) && Lookup(u, r, w) == Lookup(t, r, w)
  {
    OnlyOutside(t, u, r, v, v + 1, r, w);
  }

  lemma AllMappedOne(t: Tree, r: nat, v: nat)
    requires TreeOk(t) && IsRoot(t, r) && Lookup(t, r, v).valid
    ensures AllMapped(t, r, v, v + 1)
  {
  }

  /** Unmapping the trampoline, in parts. */
  lemma UnmappedFacts(s: Space, u: Space, r: nat, v: nat)
    requires Unmapped(s, u, r, v, v + 1, false) && AllEmpty(s.t, r, 0, TRAPFRAME)
             && AllEmpty(s.t, r, TRAPFRAME, TRAMPOLINE) && v == TRAMPOLINE
    ensures TreeOk(u.t) && IsRoot(u.t, r) && SameOthers(s.t, u.t, r)
    ensures AllEmpty(u.t, r, 0, TRAPFRAME) && AllEmpty(u.t, r, TRAPFRAME, TRAMPOLINE)
            && AllEmpty(u.t, r, TRAMPOLINE, MAXVPN)
  {
    UnmappedElsewhere(s, u, r, v, v + 1, false, 0, TRAPFRAME);
    UnmappedElsewhere(s, u, r, v, v + 1, false, TRAPFRAME, TRAMPOLINE);
  }
}
