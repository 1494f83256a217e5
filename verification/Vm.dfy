/** kalloc.c, and the page-table and user-memory operations of vm.c, over the pages of the pool. */
module Vm {
  import opened Blocks
  import opened PageTable
  import opened VmSpec
  import opened FreeWalk
  import opened PageNeed
  import opened UserCopy

  datatype Outcome = Done | NoMemory | Panic

  class Vm {
    var freelist: seq<nat>          // kmem.freelist, as the list of page numbers
    var tables: map<nat, Table>     // page-table pages
    var data: map<nat, Page>        // the other pages kalloc has handed out
    ghost var up: map<nat, Link>
    ghost var home: map<nat, Loc>

    ghost function T(): (t: Tree)
      reads `tables, `up
    {
      Tree(tables, up)
    }

    ghost predicate Valid()
      reads this
    {
      TreeOk(T()) && PoolOk(freelist, T(), data) && UserOk(T(), data, home)
    }

    ghost function Pool(): (s: set<nat>)
      reads this
    {
      PoolSet(freelist, T(), data)
    }

    /** kinit with freerange over pages lo to hi - 1. */
    constructor (lo: nat, hi: nat)
      requires 0 < lo <= hi
      ensures Valid() && tables == map[] && data == map[] && home == map[]
      ensures forall q: nat :: q in freelist <==> lo <= q < hi
    {
      freelist, tables, data, up, home := [], map[], map[], map[], map[];
      new;
      var p := lo;
      while p < hi
        invariant lo <= p <= hi && tables == map[] && data == map[] && home == map[] && up == map[]
        invariant Valid() && forall q: nat :: q in freelist <==> lo <= q < p
      {
        assert forall i :: 0 <= i < |freelist| ==> freelist[i] in freelist;
        freelist := [p] + freelist;
        p := p + 1;
      }
    }

    /** kalloc: the head of the free list, filled with junk, or 0. */
    method Kalloc() returns (r: nat)
      requires Valid()
      modifies `freelist, `data
      ensures Valid()
      ensures old(freelist) == [] ==> r == 0 && freelist == [] && data == old(data)
      ensures old(freelist) != [] ==> r == old(freelist)[0] && freelist == old(freelist)[1..]
                                      && data == old(data)[r := Filled(5)]
      ensures (r != 0 <==> old(freelist) != []) && Pool() == old(Pool())
      ensures r != 0 ==> r !in old(data) && r !in tables && r !in home
    {
      if freelist == [] { return 0; }
      r := freelist[0];
      HomesAreData(T(), data, home);
      PoolPop(freelist, T(), data, Filled(5));
      PoolTaken(freelist, T(), data, Filled(5));
      hide PoolSet;
      UserData(T(), data, data[r := Filled(5)], home);
      freelist := freelist[1..];
      data := data[r := Filled(5)];
    }

    /** kfree of a page no user mapping owns. */
    method Kfree(p: nat)
      requires Valid() && p in data && p !in home
      modifies `freelist, `data
      ensures Valid() && freelist == [p] + old(freelist) && data == old(data) - {p} && Pool() == old(Pool())
    {
      PoolFreed(freelist, T(), data, p);
      hide PoolSet;
      HomesAreData(T(), data, home);
      PoolPush(freelist, T(), data, p);
      UserData(T(), data, data - {p}, home);
      data := data - {p};
      freelist := [p] + freelist;
    }

    /** Clear page q and hang it under entry i of page p. */
    method HangTable(p: nat, i: nat, q: nat)
      requires p in tables && p in up && up[p].level > 0 && i < |tables[p]| && q != p
      modifies `data, `tables, `up
      ensures T() == Grow(old(T()), p, i, q) && data == old(data) - {q}
    {
      data := data - {q};
      tables := tables[q := EmptyTable()];
      tables := tables[p := tables[p][i := Pte(true, q, NONE)]];
      up := up[q := Link(up[p].level - 1, p, i)];
    }

    /** One level of walk: the page below entry i of p, made if absent and alloc is set. */
    method Descend(p: nat, i: nat, alloc: bool) returns (ok: bool, q: nat)
      requires Valid() && p in tables && up[p].level > 0 && i < if up[p].level == 2 then 256 else 512
      modifies `freelist, `data, `tables, `up
      ensures Valid() && data == old(data) && p in tables && up[p] == old(up[p])
              && RootOf(T(), p) == RootOf(old(T()), p)
      ensures ok ==> tables[p][i].valid && tables[p][i].ppn == q && q in tables && up[q] == Link(up[p].level - 1, p, i)
      ensures !ok ==> !old(tables)[p][i].valid && (alloc ==> freelist == [])
      ensures ok ==> Descended(old(T()), |old(freelist)|, T(), |freelist|, p, i, q)
      ensures !ok || !alloc ==> tables == old(tables) && up == old(up) && freelist == old(freelist)
      ensures Walked(old(T()), old(freelist), T(), freelist, RootOf(T(), p))
    {
      ghost var t, d, free := T(), data, freelist;
      assert DownAt(t, p, i);
      WalkedNowhere(t, free, RootOf(t, p));
      if tables[p][i].valid {
        return true, tables[p][i].ppn;
      }
      hide Walked;
      if !alloc { return false, 0; }
      q := Kalloc();
      if q == 0 { return false, 0; }
      WalkedGrow(t, free, d, home, p, i);
      assert data - {q} == d && q != p && |tables[p]| == 512;
      HangTable(p, i, q);
      hide PoolOk, UserOk, TreeOk, RootOf;
      ok := true;
    }

    /** walk: down from the root to the level-0 page of v, adding tables if alloc is set. */
    method Walk(root: nat, v: nat, alloc: bool) returns (ok: bool, page: nat)
      requires Valid() && IsRoot(T(), root) && v < MAXVPN
      modifies `freelist, `data, `tables, `up
      ensures Valid() && IsRoot(T(), root) && data == old(data) && Walked(old(T()), old(freelist), T(), freelist, root)
      ensures ok ==> HasL0(T(), root, v) && page == L0(T(), root, v) && |tables[page]| == 512
                     && Lookup(T(), root, v) == if tables[page][PX(0, v)].valid then tables[page][PX(0, v)] else INVALID
      ensures !ok ==> Lookup(T(), root, v) == INVALID && (alloc ==> freelist == [])
      ensures !alloc ==> tables == old(tables) && up == old(up) && freelist == old(freelist)
      ensures ok ==> Spent(old(T()), |old(freelist)|, T(), |freelist|, root, v)
      ensures !ok && alloc ==> |old(freelist)| < Lack(TablesOf(old(T()), root), v)
    {
      hide PoolOk, UserOk, TablesOf, FillAt, LackAt, Walked;
      page := root;
      var level := 2;
      WalkedNowhere(T(), freelist, root);
      ghost var h := TablesOf(T(), root);
      while level > 0
        invariant level <= 2 && Valid() && OnPath(T(), root, v, level, page) && data == old(data)
        invariant Walked(old(T()), old(freelist), T(), freelist, root)
        invariant !alloc ==> tables == old(tables) && up == old(up) && freelist == old(freelist)
        invariant TablesOf(T(), root) == FillTo(h, v, level) && |freelist| + LackTo(h, v, level) == |old(freelist)|
      {
        ghost var t, free := T(), freelist;
        LackHere(t, root, v, level, page);
        LackSoFar(h, v, level);
        OnPathBelow(t, root, v, level, page);
        ok, page := Descend(page, PX(level, v), alloc);
        WalkedTrans(old(T()), old(freelist), t, free, T(), freelist, root);
        if !ok { return false, 0; }
        WalkedOn(t, free, T(), freelist, root, v, level, up[page].parent, page);
        DescendedTables(t, |free|, T(), |freelist|, root, v, level, up[page].parent, page, h);
        level := level - 1;
      }
      OnPathBelow(T(), root, v, 0, page);
      ok := true;
    }
  
    /** *pte = PA2PTE(pa) | perm | PTE_V, for the entry that walk found unused. */
    method PutLeaf(root: nat, v: nat, page: nat, e: Pte)
      requires Valid() && IsRoot(T(), root) && v < MAXVPN && HasL0(T(), root, v) && page == L0(T(), root, v)
               && !Lookup(T(), root, v).valid
      requires e.valid && !IsPointer(e) && if v < TRAPFRAME then e.ppn in data && e.ppn !in home else !e.perm.u
      modifies `tables, `home
      ensures Valid() && Pool() == old(Pool()) && OnlyPages(old(T()), T(), root, v, v + 1)
      ensures IsRoot(T(), root) && Lookup(T(), root, v) == e
      ensures home == if v < TRAPFRAME then old(home)[e.ppn := Loc(root, v)] else old(home)
      ensures TablesOf(T(), root) == TablesOf(old(T()), root)
    {
      hide OnlyPages, PoolOk, UserOk, PoolSet, Lookup, HasL0, L0, DownAt, UpAt, TablesOf;
      MapSummary(T(), freelist, data, home, root, v, e);
      ghost var t := T();
      PoolWrote(freelist, t, SetEntry(t, page, PX(0, v), e), data);
      LeafTables(t, root, v, e);
      tables := tables[page := tables[page][PX(0, v) := e]];
      assert T() == SetEntry(t, page, PX(0, v), e);
      if v < TRAPFRAME { home := home[e.ppn := Loc(root, v)]; }
    }

    /** The body of mappages' loop: map page v of root to page ppn. Panic where v is already mapped. */
    method MapOne(root: nat, v: nat, ppn: nat, perm: Perm) returns (o: Outcome)
      requires Valid() && IsRoot(T(), root) && v < MAXVPN && !IsPointer(Pte(true, ppn, perm))
      requires if v < TRAPFRAME then ppn in data && ppn !in home else !perm.u
      modifies `freelist, `data, `tables, `up, `home
      ensures Valid() && data == old(data) && Pool() == old(Pool()) && OnlyPages(old(T()), T(), root, v, v + 1)
      ensures o.Panic? <==> Lookup(old(T()), root, v).valid
      ensures IsRoot(T(), root) && Lookup(T(), root, v) == if o.Done? then Pte(true, ppn, perm)
          else Lookup(old(T()), root, v)
      ensures home == if o.Done? && v < TRAPFRAME then old(home)[ppn := Loc(root, v)] else old(home)
      ensures o.NoMemory? ==> freelist == [] && |old(freelist)| < Lack(TablesOf(old(T()), root), v)
      ensures o.Done? ==> Spent(old(T()), |old(freelist)|, T(), |freelist|, root, v)
    {
      hide Walked, OnlyPages, PoolOk, UserOk, PoolSet, Lookup, HasL0, L0, PX, TablesOf, Lack, Fill;
      ghost var t0, f0 := T(), freelist;
      var ok, page := Walk(root, v, true);
      ghost var t := T();
      WalkedSummary(t0, f0, t, freelist, root, v);
      if !ok {
        o := NoMemory;
      } else if tables[page][PX(0, v)].valid {
        o := Panic;
      } else {
        PutLeaf(root, v, page, Pte(true, ppn, perm));
        OnlyTrans(t0, t, T(), root, v, v + 1);
        o := Done;
      }
    }
  
    /** Clear the entry of a mapped page; the page it held. */
    method ClearLeaf(root: nat, v: nat) returns (q: nat)
      requires Valid() && IsRoot(T(), root) && v < MAXVPN && Lookup(T(), root, v).valid
      modifies `freelist, `data, `tables, `up, `home
      ensures Valid() && freelist == old(freelist) && data == old(data) && Pool() == old(Pool())
      ensures OnlyPages(old(T()), T(), root, v, v + 1) && IsRoot(T(), root) && Lookup(T(), root, v) == INVALID
      ensures q == Lookup(old(T()), root, v).ppn && home == if v < TRAPFRAME then old(home) - {q} else old(home)
      ensures v < TRAPFRAME ==> q in data
    {
      hide Walked, OnlyPages, PoolOk, UserOk, PoolSet, Lookup, HasL0, L0, DownAt, UpAt;
      ghost var t := T();
      UnmapSummary(t, freelist, data, home, root, v);
      PoolWrote(freelist, t, SetEntry(t, L0(t, root, v), PX(0, v), INVALID), data);
      var ok, page := Walk(root, v, false);
      assert T() == t;
      q := tables[page][PX(0, v)].ppn;
      tables := tables[page := tables[page][PX(0, v) := INVALID]];
      assert T() == SetEntry(t, page, PX(0, v), INVALID);
      if v < TRAPFRAME { home := home - {q}; }
    }

    ghost function S(): (s: Space)
      reads this
    {
      Space(T(), data, home)
    }

    /** The loop body of uvmunmap: unmap page v, and free what it was mapped to if doFree. The entry
        is cleared before the page is freed; nothing looks at either in between. */
    method UnmapOne(root: nat, v: nat, doFree: bool)
      requires Valid() && IsRoot(T(), root) && v < MAXVPN && Lookup(T(), root, v).valid && (doFree ==> v < TRAPFRAME)
      modifies `freelist, `data, `tables, `up, `home
      ensures Valid() && Pool() == old(Pool()) && Unmapped(old(S()), S(), root, v, v + 1, doFree)
    {
      hide OnlyPages, PoolOk, UserOk, PoolSet, Lookup, Released;
      ReleasedOne(T(), data, home, root, v, doFree);
      var q := ClearLeaf(root, v);
      assert AllEmpty(T(), root, v, v + 1);
      if doFree {
        Kfree(q);
      }
    }

    /** uvmunmap, where all the mappings exist. */
    method Uvmunmap(root: nat, v: nat, n: nat, doFree: bool)
      requires Valid() && v + n <= MAXVPN && (doFree ==> v + n <= TRAPFRAME) && AllMapped(T(), root, v, v + n)
      modifies `freelist, `data, `tables, `up, `home
      ensures Valid() && Pool() == old(Pool()) && Unmapped(old(S()), S(), root, v, v + n, doFree)
    {
      hide PoolOk, UserOk, Lookup, PoolSet, Unmapped, AllEmpty, OnlyPages, Released;
      ghost var s0 := S();
      UnmappedNone(s0, root, v, doFree);
      var a := v;
      while a < v + n
        invariant v <= a <= v + n && Valid() && Pool() == old(Pool()) && Unmapped(s0, S(), root, v, a, doFree)
      {
        ghost var s := S();
        StillMapped(s0, s, root, v, a, v + n, doFree);
        UnmapOne(root, a, doFree);
        UnmappedMore(s0, s, S(), root, v, a, doFree);
        a := a + 1;
      }
    }
  
    /** kfree of a page-table page. */
    method FreeTable(p: nat)
      requires PoolOk(freelist, T(), data) && p in tables
      modifies `freelist, `tables, `up
      ensures PoolOk(freelist, T(), data) && Pool() == old(Pool()) && tables == old(tables) - {p} && up == old(up) - {p}
    {
      PoolTableFreed(freelist, T(), Tree(tables - {p}, up - {p}), data, p);
      hide PoolOk, PoolSet;
      tables := tables - {p};
      up := up - {p};
      freelist := [p] + freelist;
    }

    /** freewalk of a table without leaves: it and the tables below it are freed. */
    method Freewalk(p: nat)
      requires TreeOk(T()) && PoolOk(freelist, T(), data) && p in tables && NoLeaves(T(), p)
      modifies `freelist, `tables, `up
      ensures PoolOk(freelist, T(), data) && Pool() == old(Pool()) && Pruned(old(T()), p, T())
      decreases if p in up then up[p].level else 0, 1
    {
      hide PoolOk, PoolSet, DownAt, UpAt, Below, Branch, Pruned;
      ghost var t := T();
      CutNothing(t, p);
      var i := 0;
      while i < 512
        invariant i <= 512 && Cut(t, p, i, T()) && PoolOk(freelist, T(), data) && Pool() == old(Pool())
      {
        CutOk(t, p, i, T());
        var pte := tables[p][i];
        if pte.valid && IsPointer(pte) {
          FreeChild(t, p, i);
        } else {
          NotLeaf(t, p, i);
          CutSkip(t, p, i, T());
        }
        i := i + 1;
      }
      CutAll(t, p, T());
      FreeTable(p);
    }

    /** The recursive call of freewalk on entry i of p, and the clearing of the entry. */
    method FreeChild(ghost t: Tree, p: nat, i: nat)
      requires TreeOk(t) && p in t.tables && i < 512 && NoLeaves(t, p) && Cut(t, p, i, T())
      requires TreeOk(T()) && PoolOk(freelist, T(), data) && tables[p][i].valid && IsPointer(tables[p][i])
      modifies `freelist, `tables, `up
      ensures Cut(t, p, i + 1, T()) && PoolOk(freelist, T(), data) && Pool() == old(Pool())
      decreases if p in t.up then t.up[p].level else 0, 0
    {
      hide PoolOk, PoolSet, DownAt, UpAt, Below, Branch, Pruned;
      var pte := tables[p][i];
      IsTablePointer(t, p, i);
      CutNoLeaves(t, p, i, T());
      ghost var u := T();
      Freewalk(pte.ppn);
      CutBranch(t, p, i, u, T());
      ghost var w := T();
      tables := tables[p := tables[p][i := INVALID]];
      assert T() == SetEntry(w, p, i, INVALID);
      PoolCleared(freelist, w, T(), data);
    }

    /** mappages of n pages; k of them are mapped when it stops. */
    method Mappages(root: nat, v: nat, n: nat, ppn: nat, perm: Perm) returns (o: Outcome, ghost k: nat)
      requires Valid() && IsRoot(T(), root) && n >= 1 && v + n <= MAXVPN && !IsPointer(Pte(true, ppn, perm))
      requires forall w: nat, q: nat :: v <= w < v + n && q == ppn + w - v ==> CanMap(data, home, w, q, perm)
      modifies `freelist, `data, `tables, `up, `home
      ensures Valid() && data == old(data) && Pool() == old(Pool())
              && MappedUpTo(old(T()), T(), root, v, n, ppn, perm, k)
      ensures home == Homes(old(home), root, v, ppn, k) && k <= n && (o.Done? <==> k == n)
      ensures o.Panic? ==> Lookup(old(T()), root, v + k).valid
      ensures o.NoMemory? ==> freelist == [] && !Lookup(old(T()), root, v + k).valid
                              && |old(freelist)| < TableNeed(TablesOf(old(T()), root), v, v + n)
      ensures o.Done? ==> SpentRange(old(T()), |old(freelist)|, T(), |freelist|, root, v, v + n)
    {
      hide PoolOk, UserOk, PoolSet, OnlyPages, Lookup, DownAt, UpAt, Homes, Spent, SpentRange, TablesOf, Lack,
        TableNeed;
      ghost var t := T();
      MappedNone(t, root, v, n, ppn, perm);
      SpentNone(t, |freelist|, root, v);
      assert Homes(home, root, v, ppn, 0) == home by { HomesNone(home, root, v, ppn); }
      k := 0;
      var a := v;
      var pa := ppn;
      while true
        invariant k < n && a == v + k && pa == ppn + k
        invariant Valid() && data == old(data) && Pool() == old(Pool()) && MappedUpTo(t, T(), root, v, n, ppn, perm, k)
        invariant home == Homes(old(home), root, v, ppn, k)
        invariant SpentRange(t, |old(freelist)|, T(), |freelist|, root, v, a)
        decreases n - k
      {
        ghost var u, m := T(), |freelist|;
        HomesKeys(old(home), root, v, ppn, k, pa);
        assert CanMap(data, old(home), a, pa, perm);
        o := MapOne(root, a, pa, perm);
        MappedMore(t, u, T(), root, v, n, ppn, perm, k, o.Done?);
        if o.NoMemory? { SpentShort(t, |old(freelist)|, u, m, root, v, a, v + n); }
        if !o.Done? { return; }
        SpentMore(t, |old(freelist)|, u, m, T(), |freelist|, root, v, a, 0);
        HomesNext(old(home), root, v, ppn, k);
        k := k + 1;
        if a == v + n - 1 { return; }
        a := a + 1;
        pa := pa + 1;
      }
    }
  
    /** kalloc, and memset or memmove of the page. */
    method NewPage(page: Page) returns (mem: nat)
      requires Valid()
      modifies `freelist, `data
      ensures Valid() && Pool() == old(Pool())
      ensures mem == 0 ==> data == old(data) && old(freelist) == []
      ensures mem != 0 ==> |freelist| + 1 == |old(freelist)|
      ensures mem != 0 ==> mem !in old(data) && mem !in home && data == old(data)[mem := page]
    {
      hide PoolOk, UserOk, PoolSet, DownAt, UpAt;
      mem := Kalloc();
      if mem != 0 {
        HomesAreData(T(), data, home);
        UserData(T(), data, data[mem := page], home);
        PoolContents(freelist, T(), data, mem, page);
        data := data[mem := page];
      }
    }

    /** The common part of the loops of uvmalloc and uvmcopy: a new page with the given contents is
        mapped at v, or, when memory runs out, nothing is. */
    method AddPage(root: nat, v: nat, page: Page, perm: Perm) returns (ok: bool)
      requires Valid() && IsRoot(T(), root) && !IsPointer(Pte(true, 0, perm))
               && (freelist == [] || (v < TRAPFRAME && !Lookup(T(), root, v).valid))
      modifies `freelist, `data, `tables, `up, `home
      ensures Valid() && Pool() == old(Pool())
      ensures if ok then Added(old(S()), S(), root, v, page, perm) else Restored(old(S()), S(), root)
      ensures if ok then Spent(old(T()), |old(freelist)|, T(), |freelist| + 1, root, v)
              else |old(freelist)| <= Lack(TablesOf(old(T()), root), v)
    {
      hide PoolOk, UserOk, PoolSet, OnlyPages, Lookup, DownAt, UpAt, Restored, TablesOf, Lack, SpentRange, TableNeed;
      ghost var s := S();
      RestoredSame(s, root);
      var mem := NewPage(page);
      if mem == 0 { return false; }
      NoHome(s.t, s.data, home, root, v);
      NeedOne(TablesOf(s.t, root), v);
      var o, k := Mappages(root, v, 1, mem, perm);
      HomesNone(s.home, root, v, mem);
      HomesNext(s.home, root, v, mem, 0);
      ok := o.Done?;
      if !ok {
        assert data - {mem} == s.data;
        Kfree(mem);
        RestoredByFree(s, S(), root, v, mem, perm);
      } else {
        SpentOne(s.t, |old(freelist)| - 1, T(), |freelist|, root, v);
      }
    }
  
    /** uvmdealloc. */
    method Uvmdealloc(root: nat, oldsz: nat, newsz: nat) returns (r: nat)
      requires Valid() && Pages(oldsz) <= TRAPFRAME
               && (newsz < oldsz ==> AllMapped(T(), root, Pages(newsz), Pages(oldsz)))
      modifies `freelist, `data, `tables, `up, `home
      ensures Valid() && Pool() == old(Pool())
      ensures newsz >= oldsz ==> r == oldsz && S() == old(S())
      ensures newsz < oldsz ==> r == newsz && Unmapped(old(S()), S(), root, Pages(newsz), Pages(oldsz), true)
    {
      hide PoolOk, UserOk, PoolSet, Lookup, DownAt, UpAt, Unmapped;
      if newsz >= oldsz { return oldsz; }
      if Pages(newsz) < Pages(oldsz) {
        Uvmunmap(root, Pages(newsz), Pages(oldsz) - Pages(newsz), true);
      } else {
        UnmappedNone(S(), root, Pages(newsz), true);
      }
      r := newsz;
    }

    /** The error path of uvmalloc: the pages added so far go back. */
    method Undo(ghost s0: Space, root: nat, lo: nat, p: nat)
      requires Valid() && TreeOk(s0.t) && lo <= p <= TRAPFRAME && AllEmpty(s0.t, root, lo, p)
               && Extended(s0, S(), root, lo, p)
      modifies `freelist, `data, `tables, `up, `home
      ensures Valid() && Pool() == old(Pool()) && Restored(s0, S(), root)
    {
      hide PoolOk, UserOk, PoolSet, OnlyPages, Lookup, DownAt, UpAt, Restored, Extended;
      ghost var u := S();
      ExtendedMapped(s0, u, root, lo, p);
      if lo >= p { UndoneNone(s0, u, root, lo, p); }
      var x := Uvmdealloc(root, p * PGSIZE, lo * PGSIZE);
      if lo < p { Undone(s0, u, S(), root, lo, p); }
    }

    /** uvmalloc: the new pages are zeroed, or nothing is left mapped that was not before. */
    method Uvmalloc(root: nat, oldsz: nat, newsz: nat, xperm: Perm) returns (r: nat)
      requires Valid() && (Pages(newsz) <= TRAPFRAME || Pages(oldsz) + |freelist| <= TRAPFRAME)
               && AllEmpty(T(), root, Pages(oldsz), if Pages(newsz) <= TRAPFRAME then Pages(newsz) else TRAPFRAME)
      modifies `freelist, `data, `tables, `up, `home
      ensures Valid() && Pool() == old(Pool())
      ensures newsz < oldsz ==> r == oldsz && S() == old(S()) && freelist == old(freelist)
      ensures newsz >= oldsz ==>
                var lo, hi := Pages(oldsz), Pages(newsz);
                var need := Need(TablesOf(old(T()), root), lo, hi);
                if need <= |old(freelist)| then
                  r == newsz && Extended(old(S()), S(), root, lo, hi) && |freelist| + need == |old(freelist)|
                  && Zeroed(S(), root, lo, hi, Perm(true, xperm.w, xperm.x, true))
                else
                  r == 0 && Restored(old(S()), S(), root)
    {
      hide PoolOk, UserOk, PoolSet, OnlyPages, Lookup, DownAt, UpAt, Restored, Extended, Zeroed, TablesOf, Lack, Spent,
        TableNeed, FillRange;
      if newsz < oldsz { return oldsz; }
      var perm := Perm(true, xperm.w, xperm.x, true);
      ghost var s0, free, hi := S(), |freelist|, Pages(newsz);
      ghost var top := if hi <= TRAPFRAME then hi else TRAPFRAME;
      var lo := Pages(oldsz);
      ExtendedNone(s0, root, lo);
      ZeroedNone(s0, root, lo, perm);
      SpentNone(s0.t, free, root, lo);
      var p := lo;
      while p * PGSIZE < newsz
        invariant lo <= p <= hi && (p <= top || p == lo)
        invariant Valid() && Pool() == old(Pool()) && Extended(s0, S(), root, lo, p) && Zeroed(S(), root, lo, p, perm)
        invariant SpentRange(s0.t, free, T(), |freelist| + (p - lo), root, lo, p)
        decreases newsz - p * PGSIZE
      {
        ghost var s, m := S(), |freelist|;
        if p < top { StillEmpty(s0, s, root, lo, p, top); }
        var ok := AddPage(root, p, Filled(0), perm);
        if !ok {
          SpentShortPages(s0.t, free, s.t, m, root, lo, p, hi);
          ExtendedStill(s0, s, S(), root, lo, p);
          Undo(s0, root, lo, p);
          return 0;
        }
        ExtendedMore(s0, s, S(), root, lo, p, Filled(0), perm);
        ZeroedMore(s, S(), root, lo, p, perm);
        SpentMore(s0.t, free, s.t, m, T(), |freelist| + 1, root, lo, p, p - lo);
        p := p + 1;
      }
      r := newsz;
    }

    /** walk without alloc, and a look at the entry. */
    method ReadPte(root: nat, v: nat) returns (e: Pte)
      requires Valid() && IsRoot(T(), root) && v < MAXVPN
      modifies `freelist, `data, `tables, `up
      ensures Valid() && T() == old(T()) && data == old(data) && freelist == old(freelist)
      ensures e == Lookup(T(), root, v)
    {
      hide PoolOk, UserOk, PoolSet, DownAt, UpAt, Walked, Lookup;
      var ok, page := Walk(root, v, false);
      if !ok { return INVALID; }
      e := if tables[page][PX(0, v)].valid then tables[page][PX(0, v)] else INVALID;
    }

    /** uvmcopy: the child has the parent's bytes on pages of its own, or nothing. */
    method Uvmcopy(old': nat, new': nat, sz: nat) returns (ok: bool)
      requires Valid() && old' != new' && Pages(sz) <= TRAPFRAME && AllMapped(T(), old', 0, Pages(sz))
               && AllEmpty(T(), new', 0, Pages(sz))
      modifies `freelist, `data, `tables, `up, `home
      ensures Valid() && Pool() == old(Pool())
      ensures ok <==> Need(TablesOf(old(T()), new'), 0, Pages(sz)) <= |old(freelist)|
      ensures ok ==> Extended(old(S()), S(), new', 0, Pages(sz)) && Copied(S(), old', new', Pages(sz))
                     && |freelist| + Need(TablesOf(old(T()), new'), 0, Pages(sz)) == |old(freelist)|
      ensures !ok ==> Restored(old(S()), S(), new')
    {
      hide PoolOk, UserOk, PoolSet, OnlyPages, Lookup, DownAt, UpAt, Restored, Extended, Copied, TablesOf, Lack, Spent,
        TableNeed, FillRange;
      ghost var s0, free, n := S(), |freelist|, Pages(sz);
      ExtendedNone(s0, new', 0);
      SpentNone(s0.t, free, new', 0);
      CopiedNone(s0, old', new');
      var i := 0;
      while i * PGSIZE < sz
        invariant i <= n && Valid() && Pool() == old(Pool()) && Extended(s0, S(), new', 0, i)
                  && Copied(S(), old', new', i)
        invariant SpentRange(s0.t, free, T(), |freelist| + i, new', 0, i)
        decreases sz - i * PGSIZE
      {
        ghost var s, m := S(), |freelist|;
        StillEmpty(s0, s, new', 0, i, n);
        ParentStill(s0, s, old', new', i, n);
        var pte := ReadPte(old', i);
        LeafOwned(s, old', i);
        var added := AddPage(new', i, data[pte.ppn], pte.perm);
        if !added {
          SpentShortPages(s0.t, free, s.t, m, new', 0, i, n);
          ExtendedStill(s0, s, S(), new', 0, i);
          ghost var u := S();
          ExtendedMapped(s0, u, new', 0, i);
          EmptyPart(s0.t, new', 0, i, n);
          Uvmunmap(new', 0, i, true);
          Undone(s0, u, S(), new', 0, i);
          return false;
        }
        ExtendedMore(s0, s, S(), new', 0, i, s.data[pte.ppn], pte.perm);
        CopiedMore(s, S(), old', new', i, s.data[pte.ppn], pte.perm);
        SpentMore(s0.t, free, s.t, m, T(), |freelist| + 1, new', 0, i, i);
        i := i + 1;
      }
      ok := true;
    }
  
    /** uvmcreate: an empty page table, or 0. */
    method Uvmcreate() returns (r: nat)
      requires Valid()
      modifies `freelist, `data, `tables, `up
      ensures Valid() && Pool() == old(Pool()) && data == old(data)
      ensures r == 0 ==> T() == old(T()) && old(freelist) == []
      ensures r != 0 ==> r !in old(tables) && T() == Rooted(old(T()), r) && |freelist| + 1 == |old(freelist)|
    {
      ghost var t, d := T(), data;
      r := Kalloc();
      if r != 0 {
        HomesAreData(t, d, home);
        RootedUser(t, r, d, home);
        assert data - {r} == d;
        PoolGrow(freelist, t, Rooted(t, r), data, r);
        assert PoolSet(freelist, Rooted(t, r), d) == PoolSet(freelist, t, data);
        hide PoolSet, PoolOk, UserOk;
        data := data - {r};
        tables := tables[r := EmptyTable()];
        up := up[r := Link(2, 0, 0)];
        assert T() == Rooted(t, r);
      }
    }

    /** uvmfree of an address space with nothing mapped above its sz bytes. */
    method Uvmfree(root: nat, sz: nat)
      requires Valid() && Pages(sz) <= TRAPFRAME && AllMapped(T(), root, 0, Pages(sz))
               && AllEmpty(T(), root, Pages(sz), MAXVPN)
      modifies `freelist, `data, `tables, `up, `home
      ensures Valid() && Pool() == old(Pool()) && Gone(old(S()), S(), root, Pages(sz))
    {
      hide PoolOk, UserOk, PoolSet, OnlyPages, Lookup, DownAt, UpAt, Released, Gone, Pruned;
      ghost var s, n := S(), Pages(sz);
      UnmappedNone(s, root, 0, true);
      if sz > 0 { Uvmunmap(root, 0, Pages(sz), true); }
      ghost var m := S();
      UnmappedElsewhere(s, m, root, 0, n, true, n, MAXVPN);
      EmptyJoin(m.t, root, 0, n, MAXVPN);
      OnlyIsOthers(s.t, m.t, root, 0, n);
      EmptyHasNoLeaves(m.t, root);
      Freewalk(root);
      PrunedUser(m.t, root, T(), data, home);
      GoneAfter(s, m, S(), root, n);
    }

    /** proc_freepagetable. */
    method ProcFreepagetable(root: nat, sz: nat)
      requires Valid() && Pages(sz) <= TRAPFRAME && AllMapped(T(), root, 0, Pages(sz))
               && AllEmpty(T(), root, Pages(sz), TRAPFRAME)
      requires Lookup(T(), root, TRAPFRAME).valid && Lookup(T(), root, TRAMPOLINE).valid
      modifies `freelist, `data, `tables, `up, `home
      ensures Valid() && Pool() == old(Pool()) && Gone(old(S()), S(), root, Pages(sz))
      ensures FreedExactly(old(freelist), old(S()), freelist, root, Pages(sz))
    {
      hide PoolOk, UserOk, PoolSet, OnlyPages, DownAt, UpAt, Released, Gone, Lookup, RootOf;
      ghost var s, n, free := S(), Pages(sz), freelist;
      Uvmunmap(root, TRAMPOLINE, 1, false);
      ghost var m := S();
      FrameOwnsNothing(s, m, root, TRAMPOLINE);
      OnlyIsOthers(s.t, m.t, root, TRAMPOLINE, TRAMPOLINE + 1);
      UnmappedElsewhere(s, m, root, TRAMPOLINE, TRAMPOLINE + 1, false, 0, n);
      UnmappedElsewhere(s, m, root, TRAMPOLINE, TRAMPOLINE + 1, false, n, TRAPFRAME);
      OnlyOutside(s.t, m.t, root, TRAMPOLINE, TRAMPOLINE + 1, root, TRAPFRAME);
      Uvmunmap(root, TRAPFRAME, 1, false);
      ghost var u := S();
      FrameOwnsNothing(m, u, root, TRAPFRAME);
      OnlyIsOthers(m.t, u.t, root, TRAPFRAME, TRAPFRAME + 1);
      UnmappedElsewhere(m, u, root, TRAPFRAME, TRAPFRAME + 1, false, 0, n);
      UnmappedElsewhere(m, u, root, TRAPFRAME, TRAPFRAME + 1, false, n, TRAPFRAME);
      UnmappedElsewhere(m, u, root, TRAPFRAME, TRAPFRAME + 1, false, TRAMPOLINE, MAXVPN);
      EmptyJoin(u.t, root, n, TRAPFRAME, TRAPFRAME + 1);
      EmptyJoin(u.t, root, n, TRAMPOLINE, MAXVPN);
      Uvmfree(root, sz);
      GoneTrans(m, u, S(), root, n);
      GoneTrans(s, m, S(), root, n);
      forall q: nat
        ensures q in freelist <==> q in free || (q in s.t.tables && RootOf(s.t, q) == root)
                                   || Owned(s.home, q, root, 0, n)
      {
        FreedExactlyAt(free, s, freelist, S(), root, n, q);
      }
    }
  
    /** uvmfree(pagetable, 0), when the page table is new. */
    method DropNew(root: nat, ghost t: Tree)
      requires Valid() && Aside(t, T(), root) && AllEmpty(T(), root, 0, MAXVPN)
      modifies `freelist, `data, `tables, `up, `home
      ensures Valid() && Pool() == old(Pool()) && T() == t && data == old(data) && home == old(home)
    {
      hide PoolOk, UserOk, PoolSet, DownAt, UpAt, Lookup, Released, SameOthers, NoTables;
      ghost var s := S();
      Uvmfree(root, 0);
      GoneEmpty(s, S(), root);
      AsideBack(t, s.t, root, T());
    }

    /** The second error path of proc_pagetable: uvmunmap of the trampoline, and uvmfree. */
    method DropFrames(root: nat, ghost t: Tree)
      requires Valid() && Aside(t, T(), root) && AllEmpty(T(), root, 0, TRAPFRAME)
               && AllEmpty(T(), root, TRAPFRAME, TRAMPOLINE) && Lookup(T(), root, TRAMPOLINE).valid
      modifies `freelist, `data, `tables, `up, `home
      ensures Valid() && Pool() == old(Pool()) && T() == t && data == old(data) && home == old(home)
    {
      hide PoolOk, UserOk, PoolSet, DownAt, UpAt, Lookup, SameOthers, OnlyPages, AllEmpty, Released;
      ghost var s := S();
      AllMappedOne(s.t, root, TRAMPOLINE);
      Uvmunmap(root, TRAMPOLINE, 1, false);
      FrameOwnsNothing(s, S(), root, TRAMPOLINE);
      UnmappedFacts(s, S(), root, TRAMPOLINE);
      EmptyJoin(T(), root, 0, TRAPFRAME, TRAMPOLINE);
      EmptyJoin(T(), root, 0, TRAMPOLINE, MAXVPN);
      AsideStep(t, s.t, T(), root);
      DropNew(root, t);
    }

    /** proc_pagetable: trampoline and trapframe mapped in a new page table, or nothing changed. */
    method ProcPagetable(tf: nat, trampoline: nat) returns (root: nat)
      requires Valid() && tf in data && tf !in home
      modifies `freelist, `data, `tables, `up, `home
      ensures Valid() && Pool() == old(Pool()) && data == old(data) && home == old(home)
      ensures root == 0 ==> T() == old(T()) && |old(freelist)| < 3
      ensures root != 0 ==> Aside(old(T()), T(), root) && AllEmpty(T(), root, 0, TRAPFRAME)
                            && |freelist| + 3 == |old(freelist)| && TablesOf(T(), root) == FRAME_TABLES
                            && Lookup(T(), root, TRAPFRAME) == Pte(true, tf, Perm(true, true, false, false))
                            && Lookup(T(), root, TRAMPOLINE) == Pte(true, trampoline, Perm(true, false, true, false))
    {
      hide PoolOk, UserOk, PoolSet, DownAt, UpAt, Lookup, SameOthers, OnlyPages, MappedUpTo, AllEmpty, Released,
        TablesOf, TableNeed, SpentRange;
      ghost var t := T();
      root := Uvmcreate();
      if root == 0 { return; }
      ghost var n := |freelist|;
      RootedTables(t, root);
      RootedOk(t, root);
      RootedAside(t, root);
      ghost var u := T();
      var rx := Perm(true, false, true, false);
      var o, k := Mappages(root, TRAMPOLINE, 1, trampoline, rx);
      HomesHigh(old(home), root, TRAMPOLINE, trampoline, k);
      EmptyPart(u, root, 0, TRAPFRAME, MAXVPN);
      EmptyTail(u, root, 0, TRAPFRAME, TRAMPOLINE, MAXVPN);
      EmptyTail(u, root, 0, TRAMPOLINE, MAXVPN, MAXVPN);
      MappedElsewhere(u, T(), root, TRAMPOLINE, trampoline, rx, k, 0, TRAPFRAME);
      MappedElsewhere(u, T(), root, TRAMPOLINE, trampoline, rx, k, TRAPFRAME, TRAMPOLINE);
      AsideStep(t, u, T(), root);
      if !o.Done? {
        FrameNeed();
        EmptyHere(u, root, TRAMPOLINE, MAXVPN);
        MappedElsewhere(u, T(), root, TRAMPOLINE, trampoline, rx, k, 0, MAXVPN);
        DropNew(root, t);
        return 0;
      }
      ghost var w, m := T(), |freelist|;
      var rw := Perm(true, true, false, false);
      o, k := Mappages(root, TRAPFRAME, 1, tf, rw);
      HomesHigh(old(home), root, TRAPFRAME, tf, k);
      MappedElsewhere(w, T(), root, TRAPFRAME, tf, rw, k, 0, TRAPFRAME);
      AsideStep(t, w, T(), root);
      MappedReads(w, T(), root, TRAPFRAME, tf, rw, k, TRAMPOLINE);
      if !o.Done? {
        FrameRoom(u, n, w, m, root);
        EmptyHere(w, root, TRAPFRAME, TRAMPOLINE);
        MappedElsewhere(w, T(), root, TRAPFRAME, tf, rw, k, TRAPFRAME, TRAMPOLINE);
        DropFrames(root, t);
        return 0;
      }
      FrameSpent(u, n, w, m, T(), |freelist|, root);
    }
  
    /** The memory part of fork: allocproc's trapframe page and page table, then uvmcopy; on failure
        freeproc. */
    method ForkMemory(parent: nat, sz: nat, trampoline: nat) returns (ok: bool, tf: nat, root: nat)
      requires Valid() && Pages(sz) <= TRAPFRAME && AllMapped(T(), parent, 0, Pages(sz))
      modifies `freelist, `data, `tables, `up, `home
      ensures Valid() && Pool() == old(Pool())
      ensures ok <==> 4 + Need(FRAME_TABLES, 0, Pages(sz)) <= |old(freelist)|
      ensures ok ==> |freelist| + 4 + Need(FRAME_TABLES, 0, Pages(sz)) == |old(freelist)|
      ensures !ok ==> T() == old(T()) && data == old(data) && home == old(home)
                      && FreeSet(freelist) == FreeSet(old(freelist))
      ensures ok ==> Aside(old(T()), T(), root) && Copied(S(), parent, root, Pages(sz))
                     && AllEmpty(T(), root, Pages(sz), TRAPFRAME)
      ensures ok ==> tf !in old(data) && tf in data && tf !in home && Lookup(T(), root, TRAPFRAME).valid
                     && Lookup(T(), root, TRAPFRAME).ppn == tf
                     && Lookup(T(), root, TRAMPOLINE).valid
      ensures ok ==> forall q :: q in old(data) ==> q in data && data[q] == old(data)[q]
    {
      hide PoolOk, UserOk, PoolSet, DownAt, UpAt, Lookup, SameOthers, OnlyPages, AllEmpty, Released, FreeSet,
        AllMapped, Copied, Extended, TablesOf, Need;
      ghost var t, d, h, free, n := T(), data, home, freelist, Pages(sz);
      SameFree(free, free, t, d);
      root, ok := 0, false;
      tf := Kalloc();
      if tf == 0 { return; }
      assert data - {tf} == d;
      root := ProcPagetable(tf, trampoline);
      if root == 0 {
        Kfree(tf);
        SameFree(free, freelist, t, d);
        return;
      }
      ghost var s := S();
      ParentAside(t, s.t, root, parent, n);
      EmptyPart(s.t, root, 0, n, TRAPFRAME);
      ok := Uvmcopy(parent, root, sz);
      if !ok {
        RestoredFacts(s, S(), root);
        AsideStep(t, s.t, T(), root);
        Kfree(tf);
        ghost var u := S();
        ProcFreepagetable(root, 0);
        GoneEmpty(u, S(), root);
        GoneFacts(u, S(), root, 0);
        AsideBack(t, u.t, root, T());
        SameFree(free, freelist, t, d);
        return;
      }
      ExtendedFacts(s, S(), root, n);
      AsideStep(t, s.t, T(), root);
    }
  
    /** memmove of src to page q from offset off. */
    method StoreBytes(q: nat, off: nat, src: seq<Byte>)
      requires Valid() && q in data && off + |src| <= PGSIZE
      modifies `data
      ensures data == old(data)[q := Splice(old(data)[q], off, src)] && Pool() == old(Pool()) && Valid()
    {
      HomesAreData(T(), data, home);
      UserData(T(), data, data[q := Splice(data[q], off, src)], home);
      PoolContents(freelist, T(), data, q, Splice(data[q], off, src));
      hide PoolSet, PoolOk, UserOk, Splice;
      data := data[q := Splice(data[q], off, src)];
    }

    /** copyout; on failure the first `done` bytes have been copied. */
    method Copyout(root: nat, dstva: nat, src: seq<Byte>) returns (ok: bool, ghost done: nat)
      requires Valid() && IsRoot(T(), root)
      modifies `freelist, `data, `tables, `up
      ensures Valid() && Pool() == old(Pool()) && freelist == old(freelist) && T() == old(T())
      ensures done <= |src| && Wrote(old(S()), S(), root, dstva, src[..done])
      ensures ok ==> done == |src|
      ensures !ok ==> done < |src| && !Reachable(S(), root, dstva + done, true)
    {
      hide PoolOk, UserOk, PoolSet, DownAt, UpAt, Lookup, Wrote, Splice;
      ghost var s0 := S();
      WroteNothing(s0, root, dstva);
      assert src[..0] == [];
      var i := 0;
      while i < |src|
        invariant i <= |src| && Valid() && Pool() == old(Pool()) && freelist == old(freelist) && T() == s0.t
                  && home == s0.home
        invariant Wrote(s0, S(), root, dstva, src[..i])
      {
        ghost var s := S();
        var va := dstva + i;
        if va / PGSIZE >= MAXVPN { return false, i; }
        var pte := ReadPte(root, va / PGSIZE);
        if !pte.valid || !pte.perm.u || !pte.perm.w { return false, i; }
        var n := PGSIZE - va % PGSIZE;
        if n > |src| - i { n := |src| - i; }
        StoredWrote(s, root, va, src[i..i + n]);
        StoreBytes(pte.ppn, va % PGSIZE, src[i..i + n]);
        assert S() == Stored(s, root, va, src[i..i + n]);
        WroteMore(s0, s, S(), root, dstva, src[..i], src[i..i + n]);
        assert src[..i] + src[i..i + n] == src[..i + n];
        i := i + n;
      }
      assert src[..|src|] == src;
      return true, |src|;
    }

    /** copyin. */
    method Copyin(root: nat, srcva: nat, len: nat) returns (ok: bool, dst: seq<Byte>)
      requires Valid() && IsRoot(T(), root)
      modifies `freelist, `data, `tables, `up
      ensures Valid() && freelist == old(freelist) && T() == old(T()) && data == old(data)
      ensures Reads(S(), root, srcva, dst) && |dst| <= len && (ok <==> |dst| == len)
      ensures !ok ==> !Reachable(S(), root, srcva + |dst|, false)
    {
      hide PoolOk, PoolSet, DownAt, UpAt, Lookup;
      dst := [];
      while |dst| < len
        invariant |dst| <= len && Valid() && freelist == old(freelist) && T() == old(T()) && data == old(data)
        invariant Reads(S(), root, srcva, dst)
        decreases len - |dst|
      {
        var va := srcva + |dst|;
        if va / PGSIZE >= MAXVPN { return false, dst; }
        var pte := ReadPte(root, va / PGSIZE);
        if !pte.valid || !pte.perm.u { return false, dst; }
        var n := PGSIZE - va % PGSIZE;
        if n > len - |dst| { n := len - |dst|; }
        ReadsMore(S(), root, srcva, dst, n);
        dst := dst + data[pte.ppn].bytes[va % PGSIZE..va % PGSIZE + n];
      }
      ok := true;
    }

    /** copyout, then copyin of the same range: the bytes come back, and nothing but them was written. */
    method CopyOutAndIn(root: nat, va: nat, src: seq<Byte>) returns (ok: bool, bytes: seq<Byte>, ghost done: nat)
      requires Valid() && IsRoot(T(), root)
      modifies `freelist, `data, `tables, `up
      ensures Valid() && Pool() == old(Pool()) && freelist == old(freelist) && T() == old(T())
      ensures done <= |src| && Wrote(old(S()), S(), root, va, src[..done]) && (ok <==> done == |src|)
      ensures if ok then bytes == src else !Reachable(S(), root, va + done, true)
    {
      hide PoolOk, UserOk, PoolSet, DownAt, UpAt, Lookup, Wrote, Reads;
      ghost var s := S();
      ok, done := Copyout(root, va, src);
      bytes := [];
      if ok {
        assert src[..done] == src;
        var got;
        got, bytes := Copyin(root, va, |src|);
        WroteReachable(s, S(), root, va, src, |bytes|);
        ReadBack(s, S(), root, va, src, bytes);
      }
    }
  }
}
