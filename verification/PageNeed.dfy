/** How many pages mapping a range takes: one table for each 512-page group that has none under the
    root, and one for each 512 groups. What uvmalloc, uvmcopy and fork need of the free list is exact. */
module PageNeed {
  import opened PageTable
  import opened VmSpec
  import opened FreeWalk

  /** The tables below a root: level 1 by v / 262144, level 0 by v / 512. */
  datatype Tables = Tables(l1: set<nat>, l0: set<nat>)

  ghost function TablesOf(t: Tree, r: nat): (h: Tables)
    requires TreeOk(t) && IsRoot(t, r)
  {
    Tables(set g: nat | g < 256 && t.tables[r][g].valid, set g: nat | g < 131072 && HasL0(t, r, g * 512))
  }

  /** What walk adds at one level on the way to v, at both, and for a range of pages. */
  function FillAt(h: Tables, v: nat, level: nat): (k: Tables) {
    if level == 2 then h.(l1 := h.l1 + {v / 262144}) else h.(l0 := h.l0 + {v / 512})
  }

  function LackAt(h: Tables, v: nat, level: nat): (n: nat) {
    if (if level == 2 then v / 262144 in h.l1 else v / 512 in h.l0) then 0 else 1
  }

  function Fill(h: Tables, v: nat): (k: Tables) { FillAt(FillAt(h, v, 2), v, 1) }

  function Lack(h: Tables, v: nat): (n: nat) { LackAt(h, v, 2) + LackAt(h, v, 1) }

  /** What has been added when walk is at a level. */
  function FillTo(h: Tables, v: nat, level: nat): (k: Tables) {
    if level == 2 then h else if level == 1 then FillAt(h, v, 2) else Fill(h, v)
  }

  function LackTo(h: Tables, v: nat, level: nat): (n: nat) {
    if level == 2 then 0 else if level == 1 then LackAt(h, v, 2) else Lack(h, v)
  }

  lemma LackSoFar(h: Tables, v: nat, level: nat)
    requires 0 < level <= 2
    ensures LackTo(h, v, level) + LackAt(FillTo(h, v, level), v, level) <= Lack(h, v)
  {
  }

  /** The groups of a size that pages lo to hi - 1 are in. */
  ghost function Groups(lo: nat, hi: nat, size: nat): (s: set<nat>)
    requires size > 0
  {
    set v: nat | lo <= v < hi :: v / size
  }

  ghost function FillRange(h: Tables, lo: nat, hi: nat): (k: Tables) {
    Tables(h.l1 + Groups(lo, hi, 262144), h.l0 + Groups(lo, hi, 512))
  }

  /** The tables that the pages lo to hi - 1 need and h lacks, and with them the pages themselves. */
  ghost function TableNeed(h: Tables, lo: nat, hi: nat): (n: nat) {
    |Groups(lo, hi, 262144) - h.l1| + |Groups(lo, hi, 512) - h.l0|
  }

  ghost function Need(h: Tables, lo: nat, hi: nat): (n: nat) {
    TableNeed(h, lo, hi) + if lo <= hi then hi - lo else 0
  }

  lemma GroupsMore(h: set<nat>, lo: nat, hi: nat, size: nat)
    requires size > 0 && lo <= hi
    ensures h + Groups(lo, hi + 1, size) == h + Groups(lo, hi, size) + {hi / size}
    ensures |Groups(lo, hi + 1, size) - h|
            == |Groups(lo, hi, size) - h| + if hi / size in h + Groups(lo, hi, size) then 0 else 1
  {
    var a, b := Groups(lo, hi, size), Groups(lo, hi + 1, size);
    assert b == a + {hi / size};
    if hi / size in h + a {
      assert b - h == a - h;
    } else {
      assert b - h == a - h + {hi / size};
    }
  }

  lemma NeedNone(h: Tables, lo: nat)
    ensures FillRange(h, lo, lo) == h && TableNeed(h, lo, lo) == 0 && Need(h, lo, lo) == 0
  {
    assert Groups(lo, lo, 262144) == {} && Groups(lo, lo, 512) == {};
  }

  /** The next page needs what is lacking once the pages before it are mapped. */
  lemma NeedMore(h: Tables, lo: nat, hi: nat)
    requires lo <= hi
    ensures FillRange(h, lo, hi + 1) == Fill(FillRange(h, lo, hi), hi)
    ensures TableNeed(h, lo, hi + 1) == TableNeed(h, lo, hi) + Lack(FillRange(h, lo, hi), hi)
    ensures Need(h, lo, hi + 1) == Need(h, lo, hi) + 1 + Lack(FillRange(h, lo, hi), hi)
  {
    GroupsMore(h.l1, lo, hi, 262144);
    GroupsMore(h.l0, lo, hi, 512);
  }

  lemma NeedOne(h: Tables, v: nat)
    ensures FillRange(h, v, v + 1) == Fill(h, v) && TableNeed(h, v, v + 1) == Lack(h, v)
  {
    NeedNone(h, v);
    NeedMore(h, v, v);
  }

  lemma {:induction false} NeedGrows(h: Tables, lo: nat, mid: nat, hi: nat)
    requires lo <= mid <= hi
    ensures TableNeed(h, lo, mid) <= TableNeed(h, lo, hi) && Need(h, lo, mid) <= Need(h, lo, hi)
    decreases hi - mid
  {
    if mid < hi {
      NeedMore(h, lo, mid);
      NeedGrows(h, lo, mid + 1, hi);
    }
  }

  // What the tree's tables are.

  lemma SameGroup(v: nat, w: nat)
    requires v < MAXVPN && w < MAXVPN
    ensures v / 262144 == w / 262144 <==> PX(2, v) == PX(2, w)
    ensures v / 512 == w / 512 <==> PX(2, v) == PX(2, w) && PX(1, v) == PX(1, w)
  {
    PxParts(v);
    PxParts(w);
  }

  lemma TableHere(t: Tree, r: nat, v: nat)
    requires TreeOk(t) && IsRoot(t, r) && v < MAXVPN
    ensures v / 512 in TablesOf(t, r).l0 <==> HasL0(t, r, v)
    ensures v / 262144 in TablesOf(t, r).l1 <==> HasL1(t, r, v)
  {
    SameGroup(v, v / 512 * 512);
  }

  lemma GrowHasL0(t: Tree, root: nat, v: nat, level: nat, page: nat, q: nat, w: nat)
    requires TreeOk(t) && OnPath(t, root, v, level, page) && 0 < level && v < MAXVPN && w < MAXVPN
             && !t.tables[page][PX(level, v)].valid && q !in t.tables
    requires TreeOk(Grow(t, page, PX(level, v), q))
    ensures var u := Grow(t, page, PX(level, v), q);
            IsRoot(u, root) && (HasL0(u, root, w) <==> HasL0(t, root, w) || (level == 1 && w / 512 == v / 512))
            && (HasL1(u, root, w) <==> HasL1(t, root, w) || (level == 2 && w / 262144 == v / 262144))
  {
    SameGroup(v, w);
    assert UpAt(t, page);
    var u := Grow(t, page, PX(level, v), q);
    if HasL1(t, root, w) { assert L1(u, root, w) == L1(t, root, w); }
  }

  /** Hanging a table under the page of v's path at a level. */
  lemma GrowTables(t: Tree, root: nat, v: nat, level: nat, page: nat, q: nat)
    requires TreeOk(t) && OnPath(t, root, v, level, page) && 0 < level && v < MAXVPN
             && !t.tables[page][PX(level, v)].valid && q !in t.tables
    requires TreeOk(Grow(t, page, PX(level, v), q))
    ensures var u := Grow(t, page, PX(level, v), q);
            IsRoot(u, root) && TablesOf(u, root) == FillAt(TablesOf(t, root), v, level)
  {
    hide HasL0, DownAt, UpAt;
    var u := Grow(t, page, PX(level, v), q);
    GrowHasL0(t, root, v, level, page, q, v);
    hide Grow;
    forall g: nat | g < 131072
      ensures g in TablesOf(u, root).l0 <==> g in FillAt(TablesOf(t, root), v, level).l0
    {
      GrowHasL0(t, root, v, level, page, q, g * 512);
    }
    forall g: nat | g < 256
      ensures g in TablesOf(u, root).l1 <==> g in FillAt(TablesOf(t, root), v, level).l1
    {
      GrowHasL0(t, root, v, level, page, q, g * 262144);
    }
  }

  /** Whether there is a table below the page of v's path. */
  lemma LackHere(t: Tree, root: nat, v: nat, level: nat, page: nat)
    requires TreeOk(t) && OnPath(t, root, v, level, page) && 0 < level && v < MAXVPN
    ensures LackAt(TablesOf(t, root), v, level) == if t.tables[page][PX(level, v)].valid then 0 else 1
  {
    TableHere(t, root, v);
    OnPathBelow(t, root, v, level, page);
  }

  /** One level of walk, from t to u: the table below was there, or was made of a free page. */
  ghost predicate Descended(t: Tree, n: nat, u: Tree, n': nat, page: nat, i: nat, q: nat) {
    && page in t.tables && i < |t.tables[page]| && page in t.up && t.up[page].level > 0
    && if t.tables[page][i].valid then u == t && n' == n
       else u == Grow(t, page, i, q) && q !in t.tables && n' + 1 == n
  }

  lemma DescendedTables(t: Tree, n: nat, u: Tree, n': nat, root: nat, v: nat, level: nat, page: nat, q: nat, h: Tables)
    requires TreeOk(t) && TreeOk(u) && OnPath(t, root, v, level, page) && 0 < level && v < MAXVPN
             && Descended(t, n, u, n', page, PX(level, v), q) && TablesOf(t, root) == FillTo(h, v, level)
    ensures IsRoot(u, root) && TablesOf(u, root) == FillTo(h, v, level - 1)
    ensures n' + LackTo(h, v, level - 1) == n + LackTo(h, v, level)
  {
    LackHere(t, root, v, level, page);
    if !t.tables[page][PX(level, v)].valid { GrowTables(t, root, v, level, page, q); }
  }

  /** From t to u, page v of root r got the tables it lacked, out of n free pages. */
  ghost predicate Spent(t: Tree, n: nat, u: Tree, n': nat, r: nat, v: nat) {
    && TreeOk(t) && TreeOk(u) && IsRoot(t, r) && IsRoot(u, r)
    && TablesOf(u, r) == Fill(TablesOf(t, r), v) && n' + Lack(TablesOf(t, r), v) == n
  }

  /** The same for pages lo to hi - 1. */
  ghost predicate SpentRange(t: Tree, n: nat, u: Tree, n': nat, r: nat, lo: nat, hi: nat) {
    && TreeOk(t) && TreeOk(u) && IsRoot(t, r) && IsRoot(u, r)
    && TablesOf(u, r) == FillRange(TablesOf(t, r), lo, hi) && n' + TableNeed(TablesOf(t, r), lo, hi) == n
  }

  lemma SpentNone(t: Tree, n: nat, r: nat, lo: nat)
    requires TreeOk(t) && IsRoot(t, r)
    ensures SpentRange(t, n, t, n, r, lo, lo)
  {
    NeedNone(TablesOf(t, r), lo);
  }

  /** One page more; d free pages have gone elsewhere. */
  lemma SpentMore(t: Tree, n: nat, u: Tree, m: nat, w: Tree, m': nat, r: nat, lo: nat, hi: nat, d: nat)
    requires lo <= hi && SpentRange(t, n, u, m + d, r, lo, hi) && Spent(u, m, w, m', r, hi)
    ensures SpentRange(t, n, w, m' + d, r, lo, hi + 1)
  {
    NeedMore(TablesOf(t, r), lo, hi);
  }

  /** The page that found too little free memory. */
  lemma SpentShort(t: Tree, n: nat, u: Tree, m: nat, r: nat, lo: nat, p: nat, hi: nat)
    requires lo <= p < hi && SpentRange(t, n, u, m, r, lo, p) && m < Lack(TablesOf(u, r), p)
    ensures n < TableNeed(TablesOf(t, r), lo, hi)
  {
    NeedMore(TablesOf(t, r), lo, p);
    NeedGrows(TablesOf(t, r), lo, p + 1, hi);
  }

  lemma SpentShortPages(t: Tree, n: nat, u: Tree, m: nat, r: nat, lo: nat, p: nat, hi: nat)
    requires lo <= p < hi && SpentRange(t, n, u, m + (p - lo), r, lo, p) && m <= Lack(TablesOf(u, r), p)
    ensures n < Need(TablesOf(t, r), lo, hi)
  {
    NeedMore(TablesOf(t, r), lo, p);
    NeedGrows(TablesOf(t, r), lo, p + 1, hi);
  }

  lemma SpentOne(t: Tree, n: nat, u: Tree, n': nat, r: nat, v: nat)
    requires SpentRange(t, n, u, n', r, v, v + 1)
    ensures Spent(t, n, u, n', r, v)
  {
    NeedOne(TablesOf(t, r), v);
  }

  lemma LeafTables(t: Tree, r: nat, v: nat, e: Pte)
    requires TreeOk(t) && IsRoot(t, r) && HasL0(t, r, v) && v < MAXVPN
    requires TreeOk(SetEntry(t, L0(t, r, v), PX(0, v), e))
    ensures var u := SetEntry(t, L0(t, r, v), PX(0, v), e); IsRoot(u, r) && TablesOf(u, r) == TablesOf(t, r)
  {
    var u := SetEntry(t, L0(t, r, v), PX(0, v), e);
    forall g: nat | g < 131072 ensures g in TablesOf(u, r).l0 <==> g in TablesOf(t, r).l0 {
      SetLeafLookup(t, r, v, e, r, g * 512);
    }
    assert u.tables[r] == t.tables[r];
  }

  // A new page table.

  /** The tables of the trampoline and trapframe pages: they share both. */
  const FRAME_TABLES := Tables({255}, {131071})

  lemma RootedTables(t: Tree, q: nat)
    requires TreeOk(t) && q !in t.tables
    ensures TreeOk(Rooted(t, q)) && IsRoot(Rooted(t, q), q) && TablesOf(Rooted(t, q), q) == Tables({}, {})
  {
    RootedOk(t, q);
  }

  /** The trampoline takes two tables of a new page table, and the trapframe then none. */
  lemma FrameNeed()
    ensures FillRange(Tables({}, {}), TRAMPOLINE, TRAMPOLINE + 1) == FRAME_TABLES
    ensures TableNeed(Tables({}, {}), TRAMPOLINE, TRAMPOLINE + 1) == 2
    ensures FillRange(FRAME_TABLES, TRAPFRAME, TRAPFRAME + 1) == FRAME_TABLES
    ensures TableNeed(FRAME_TABLES, TRAPFRAME, TRAPFRAME + 1) == 0
  {
    hide Groups, FillRange, TableNeed;
    NeedOne(Tables({}, {}), TRAMPOLINE);
    NeedOne(FRAME_TABLES, TRAPFRAME);
    assert TRAMPOLINE / 512 == TRAPFRAME / 512 == 131071 && TRAMPOLINE / 262144 == TRAPFRAME / 262144 == 255;
  }

  lemma FrameSpent(u: Tree, n: nat, w: Tree, m: nat, x: Tree, k: nat, r: nat)
    requires TreeOk(u) && IsRoot(u, r) && TablesOf(u, r) == Tables({}, {})
    requires SpentRange(u, n, w, m, r, TRAMPOLINE, TRAMPOLINE + 1)
             && SpentRange(w, m, x, k, r, TRAPFRAME, TRAPFRAME + 1)
    ensures k + 2 == n && TablesOf(x, r) == FRAME_TABLES
  {
    FrameNeed();
  }

  /** Where the trampoline could be mapped and the trapframe could not, there were not two pages. */
  lemma FrameRoom(u: Tree, n: nat, w: Tree, m: nat, r: nat)
    requires TreeOk(u) && IsRoot(u, r) && TablesOf(u, r) == Tables({}, {})
    requires SpentRange(u, n, w, m, r, TRAMPOLINE, TRAMPOLINE + 1)
    ensures n >= 2 ==> m >= TableNeed(TablesOf(w, r), TRAPFRAME, TRAPFRAME + 1)
  {
    FrameNeed();
  }
}
