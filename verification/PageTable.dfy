/** The three-level page tables of kernel/vm.c: which page each entry points to, and the partial
    map from virtual page numbers to leaf entries that the tree of a root stands for. Pages are
    named by physical page number; one collection holds the page-table pages of all roots. */
module PageTable {

  const PGSIZE: nat := 4096
  const MAXVPN: nat := 0x400_0000 // MAXVA / PGSIZE
  const TRAMPOLINE: nat := MAXVPN - 1
  const TRAPFRAME: nat := MAXVPN - 2

  datatype Perm = Perm(r: bool, w: bool, x: bool, u: bool)

  datatype Pte = Pte(valid: bool, ppn: nat, perm: Perm)

  const NONE := Perm(false, false, false, false)
  const INVALID := Pte(false, 0, NONE)

  /** The table index of virtual page v at a level. */
  function PX(level: nat, v: nat): (i: nat)
    requires level <= 2
    ensures i < 512 && (level == 2 && v < MAXVPN ==> i < 256)
  {
    if level == 2 then v / 262144 % 512 else if level == 1 then v / 512 % 512 else v % 512
  }

  /** A page number is its three indices. */
  lemma PxParts(v: nat)
    requires v < MAXVPN
    ensures v == (PX(2, v) * 512 + PX(1, v)) * 512 + PX(0, v)
  {
    assert v / 262144 == v / 512 / 512 < 512;
    assert v / 512 == v / 512 / 512 * 512 + v / 512 % 512;
  }

  lemma PxInjective(v: nat, w: nat)
    requires v < MAXVPN && w < MAXVPN && PX(2, v) == PX(2, w) && PX(1, v) == PX(1, w) && PX(0, v) == PX(0, w)
    ensures v == w
  {
    PxParts(v);
    PxParts(w);
  }

  type Table = seq<Pte>

  function EmptyTable(): (t: Table)
    ensures |t| == 512 && forall i :: 0 <= i < 512 ==> t[i] == INVALID
  {
    seq(512, _ => INVALID)
  }

  /** The place of a page-table page: its level, and the entry of another that points to it. */
  datatype Link = Link(level: nat, parent: nat, idx: nat)

  datatype Tree = Tree(tables: map<nat, Table>, up: map<nat, Link>)

  predicate IsPointer(e: Pte) { !e.perm.r && !e.perm.w && !e.perm.x }

  ghost predicate Shape(t: Tree) {
    && (forall p :: p in t.tables <==> p in t.up)
    && (forall p :: p in t.tables ==> |t.tables[p]| == 512 && t.up[p].level <= 2)
  }

  /** Entry i of page p, above level 0, points to a page one level down that knows it. */
  ghost predicate DownAt(t: Tree, p: nat, i: nat)
    requires Shape(t)
  {
    p in t.tables && i < 512 && t.up[p].level > 0 && t.tables[p][i].valid ==>
      var e := t.tables[p][i];
      IsPointer(e) && e.ppn in t.tables && t.up[e.ppn] == Link(t.up[p].level - 1, p, i)
  }

  /** Page q below the root level is pointed to by the entry it knows; a root has no entries past MAXVA. */
  ghost predicate UpAt(t: Tree, q: nat)
    requires Shape(t)
  {
    q in t.tables && t.up[q].level < 2 ==>
      var l := t.up[q];
      l.parent in t.tables && l.idx < (if l.level == 1 then 256 else 512) && t.up[l.parent].level == l.level + 1
      && t.tables[l.parent][l.idx].valid && t.tables[l.parent][l.idx].ppn == q
  }

  ghost predicate TreeOk(t: Tree) {
    && Shape(t)
    && (forall p: nat, i: nat {:trigger DownAt(t, p, i)} :: DownAt(t, p, i))
    && (forall q: nat {:trigger UpAt(t, q)} :: UpAt(t, q))
  }

  ghost predicate IsRoot(t: Tree, r: nat) { r in t.tables && r in t.up && t.up[r].level == 2 }

  /** Whether walk gets down to level 0 for v, and the page it gets to. */
  ghost predicate HasL1(t: Tree, r: nat, v: nat)
    requires TreeOk(t) && IsRoot(t, r)
  {
    t.tables[r][PX(2, v)].valid
  }

  ghost function L1(t: Tree, r: nat, v: nat): (q: nat)
    requires TreeOk(t) && IsRoot(t, r) && HasL1(t, r, v)
    ensures q in t.tables && t.up[q] == Link(1, r, PX(2, v))
  {
    assert DownAt(t, r, PX(2, v));
    t.tables[r][PX(2, v)].ppn
  }

  ghost predicate HasL0(t: Tree, r: nat, v: nat)
    requires TreeOk(t) && IsRoot(t, r)
  {
    HasL1(t, r, v) && t.tables[L1(t, r, v)][PX(1, v)].valid
  }

  ghost function L0(t: Tree, r: nat, v: nat): (q: nat)
    requires TreeOk(t) && IsRoot(t, r) && HasL0(t, r, v)
    ensures q in t.tables && |t.tables[q]| == 512 && t.up[q] == Link(0, L1(t, r, v), PX(1, v))
  {
    assert DownAt(t, L1(t, r, v), PX(1, v));
    t.tables[L1(t, r, v)][PX(1, v)].ppn
  }

  /** The leaf entry of page v under root r; INVALID where there is none. */
  ghost function Lookup(t: Tree, r: nat, v: nat): (e: Pte)
    requires TreeOk(t) && IsRoot(t, r)
  {
    if HasL0(t, r, v) && t.tables[L0(t, r, v)][PX(0, v)].valid then t.tables[L0(t, r, v)][PX(0, v)] else INVALID
  }

  /** The level-0 entry of v determines the root and v. */
  lemma LeafPlace(t: Tree, r: nat, v: nat, s: nat, w: nat)
    requires TreeOk(t) && IsRoot(t, r) && IsRoot(t, s) && HasL0(t, r, v) && HasL0(t, s, w) && v < MAXVPN && w < MAXVPN
    requires L0(t, r, v) == L0(t, s, w) && PX(0, v) == PX(0, w)
    ensures r == s && v == w
  {
    PxInjective(v, w);
  }

  // Writing a leaf.

  ghost function SetEntry(t: Tree, p: nat, i: nat, e: Pte): (u: Tree)
    requires p in t.tables && i < |t.tables[p]|
  {
    Tree(t.tables[p := t.tables[p][i := e]], t.up)
  }

  lemma SetLeafOk(t: Tree, p: nat, i: nat, e: Pte)
    requires TreeOk(t) && p in t.tables && t.up[p].level == 0 && i < 512
    ensures TreeOk(SetEntry(t, p, i, e))
  {
    var u := SetEntry(t, p, i, e);
    forall q: nat, j: nat ensures DownAt(u, q, j) { assert DownAt(t, q, j); }
    forall q: nat ensures UpAt(u, q) { assert UpAt(t, q); }
  }

  /** Writing the entry of v under r changes the map there and nowhere else, under any root. */
  lemma SetLeafLookup(t: Tree, r: nat, v: nat, e: Pte, s: nat, w: nat)
    requires TreeOk(t) && IsRoot(t, r) && HasL0(t, r, v) && v < MAXVPN && IsRoot(t, s) && w < MAXVPN
    requires TreeOk(SetEntry(t, L0(t, r, v), PX(0, v), e))
    ensures var u := SetEntry(t, L0(t, r, v), PX(0, v), e);
            IsRoot(u, s) && (HasL0(u, s, w) <==> HasL0(t, s, w)) && (HasL0(t, s, w) ==> L0(u, s, w) == L0(t, s, w))
            && Lookup(u, s, w) == if s == r && w == v then (if e.valid then e else INVALID) else Lookup(t, s, w)
  {
    var u := SetEntry(t, L0(t, r, v), PX(0, v), e);
    assert HasL1(u, s, w) == HasL1(t, s, w);
    if HasL0(t, s, w) && L0(t, s, w) == L0(t, r, v) && PX(0, w) == PX(0, v) { LeafPlace(t, r, v, s, w); }
  }

  // Hanging a new table under an entry.

  ghost function Grow(t: Tree, p: nat, i: nat, q: nat): (u: Tree)
    requires p in t.tables && i < |t.tables[p]| && p in t.up && t.up[p].level > 0
  {
    Tree(t.tables[q := EmptyTable()][p := t.tables[p][i := Pte(true, q, NONE)]],
         t.up[q := Link(t.up[p].level - 1, p, i)])
  }

  lemma GrowOk(t: Tree, p: nat, i: nat, q: nat)
    requires TreeOk(t) && p in t.tables && i < 512 && t.up[p].level > 0 && !t.tables[p][i].valid && q !in t.tables
             && (t.up[p].level == 2 ==> i < 256)
    ensures TreeOk(Grow(t, p, i, q))
  {
    var u := Grow(t, p, i, q);
    forall a: nat, j: nat ensures DownAt(u, a, j) { assert DownAt(t, a, j); }
    forall a: nat ensures UpAt(u, a) { assert UpAt(t, a); }
  }

  /** A new table is empty, so no mapping of any root changes. */
  lemma GrowLookup(t: Tree, p: nat, i: nat, q: nat, s: nat, w: nat)
    requires TreeOk(t) && p in t.tables && i < 512 && t.up[p].level > 0 && !t.tables[p][i].valid && q !in t.tables
             && (t.up[p].level == 2 ==> i < 256)
    requires TreeOk(Grow(t, p, i, q)) && IsRoot(t, s)
    ensures IsRoot(Grow(t, p, i, q), s) && Lookup(Grow(t, p, i, q), s, w) == Lookup(t, s, w)
  {
    var u := Grow(t, p, i, q);
    if HasL1(t, s, w) {
      assert UpAt(t, L1(t, s, w));
      assert L1(u, s, w) == L1(t, s, w);
      if HasL0(t, s, w) { assert L0(u, s, w) == L0(t, s, w); }
    }
  }
}
