/** The user-level allocator of user/umalloc.c. Addresses count header-sized units; a header at
    address a is the pair ptr[a], size[a]. */
module Umalloc {
  import opened Options
  import opened Seqs

  const HEADER: nat := 16 // sizeof(Header)

  /** Units needed for nbytes and a header. */
  function Units(nbytes: nat): (n: nat)
    ensures (n - 1) * HEADER >= nbytes && n >= 1 && (nbytes > 0 ==> (n - 2) * HEADER < nbytes)
  {
    (nbytes + HEADER - 1) / HEADER + 1
  }

  function Next(k: nat, n: nat): (r: nat)
    requires k < n
    ensures r < n
  {
    if k + 1 == n then 0 else k + 1
  }

  /** Which positions of a circular scan from just after s, now at q, have been passed. */
  predicate Passed(s: nat, q: nat, x: nat)
  {
    if s < q then s < x < q else x > s || x < q
  }

  function Distance(q: nat, s: nat, n: nat): (d: int)
  {
    if q <= s then s - q else n - q + s
  }

  /** Circular through ptr. */
  ghost predicate Linked(list: seq<nat>, ptr: map<nat, nat>)
  {
    && (forall k :: 0 <= k < |list| ==> list[k] in ptr)
    && (forall k {:trigger ptr[list[k]]} :: 0 <= k < |list| ==> ptr[list[k]] == list[Next(k, |list|)])
  }

  /** In address order, from base, without overlap. */
  ghost predicate Sorted(list: seq<nat>, size: map<nat, nat>, base: nat)
  {
    && |list| > 0 && list[0] == base
    && (forall k :: 0 <= k < |list| ==> list[k] in size)
    && (forall j, k :: 0 <= j < k < |list| ==> list[j] < list[k] && list[j] + size[list[j]] <= list[k])
    && size[base] == 0 && (forall k :: 1 <= k < |list| ==> size[list[k]] >= 1)
  }

  /** Coalesced: each block ends strictly before the next begins, except perhaps right after the
      positions in gaps. */
  ghost predicate CoalescedBut(list: seq<nat>, size: map<nat, nat>, gaps: set<int>)
    requires forall k :: 0 <= k < |list| ==> list[k] in size
  {
    forall k {:trigger size[list[k]]} :: 0 <= k && k + 1 < |list| && k !in gaps ==>
      list[k] + size[list[k]] < list[k + 1]
  }

  /** A block of n units at b, all of them assigned to it. */
  ghost predicate Tile(home: map<nat, nat>, b: nat, n: nat)
  {
    n >= 1 && forall x :: b <= x < b + n ==> x in home && home[x] == b
  }

  ghost predicate LiveTiles(list: seq<nat>, size: map<nat, nat>, live: map<nat, nat>, home: map<nat, nat>, base: nat)
  {
    forall b :: b in live ==> b > base && b !in list && b in size && size[b] == live[b] && Tile(home, b, live[b])
  }

  ghost predicate FreeTiles(list: seq<nat>, size: map<nat, nat>, home: map<nat, nat>)
    requires forall k :: 0 <= k < |list| ==> list[k] in size
  {
    forall k :: 1 <= k < |list| ==> Tile(home, list[k], size[list[k]])
  }

  ghost predicate UnitsInBlocks(list: seq<nat>, size: map<nat, nat>, live: map<nat, nat>, home: map<nat, nat>,
                                base: nat)
  {
    forall x :: x in home ==> x > base && InBlock(list, size, live, base, home[x], x)
  }

  /** Every unit obtained is in exactly one block, and blocks hold only units obtained. */
  ghost predicate Tiled(list: seq<nat>, size: map<nat, nat>, live: map<nat, nat>, home: map<nat, nat>, base: nat)
    requires forall k :: 0 <= k < |list| ==> list[k] in size
  {
    LiveTiles(list, size, live, home, base) && FreeTiles(list, size, home)
    && UnitsInBlocks(list, size, live, home, base)
  }

  ghost predicate InBlock(list: seq<nat>, size: map<nat, nat>, live: map<nat, nat>, base: nat, b: nat, x: nat)
  {
    (b in live || (b in list && b != base)) && b in size && b <= x < b + size[b]
  }

  /** The place of an address that is not on the list: after list[k], before list[k + 1] if any. */
  ghost predicate PlaceOf(list: seq<nat>, bp: nat, k: nat)
  {
    k < |list| && list[k] < bp && (k + 1 < |list| ==> bp < list[k + 1])
  }

  /** A live block fits between its neighbours on the list. */
  lemma Between(list: seq<nat>, size: map<nat, nat>, live: map<nat, nat>, home: map<nat, nat>, base: nat, bp: nat,
                k: nat)
    requires Sorted(list, size, base) && Tiled(list, size, live, home, base) && bp in live && PlaceOf(list, bp, k)
    ensures list[k] + size[list[k]] <= bp
    ensures k + 1 < |list| ==> bp + size[bp] <= list[k + 1]
  {
    assert home[bp] == bp;
    if k > 0 { assert Tile(home, list[k], size[list[k]]); }
    if k + 1 < |list| { assert Tile(home, list[k + 1], size[list[k + 1]]); assert home[list[k + 1]] == list[k + 1]; }
  }

  lemma {:induction false} PlaceExists(list: seq<nat>, bp: nat, n: nat) returns (k: nat)
    requires 1 <= n <= |list| && list[0] < bp && bp !in list
    ensures k < n && list[k] < bp && (k + 1 < n ==> bp < list[k + 1])
  {
    if n > 1 {
      if list[n - 1] < bp { k := n - 1; } else { k := PlaceExists(list, bp, n - 1); }
    } else {
      k := 0;
    }
  }

  /** The tests of the search loop stop exactly at the block's place. */
  lemma StopsAtPlace(list: seq<nat>, size: map<nat, nat>, base: nat, bp: nat, k: nat)
    requires Sorted(list, size, base) && bp > base && k < |list|
    ensures var p, nx := list[k], list[Next(k, |list|)];
            (bp > p && bp < nx) || (p >= nx && (bp > p || bp < nx)) <==> PlaceOf(list, bp, k)
  {
  }

  lemma Follow(list: seq<nat>, ptr: map<nat, nat>, k: nat)
    requires Linked(list, ptr) && k < |list|
    ensures list[k] in ptr && ptr[list[k]] == list[Next(k, |list|)]
  {
  }

  lemma SortedBase(list: seq<nat>, size: map<nat, nat>, base: nat)
    requires Sorted(list, size, base)
    ensures |list| > 0 && list[0] == base
  {
  }

  lemma PlaceFrom(list: seq<nat>, bp: nat, k: nat)
    requires k < |list| && list[k] < bp && (k + 1 < |list| ==> bp < list[k + 1])
    ensures PlaceOf(list, bp, k)
  {
  }

  lemma DistanceShrinks(k: nat, t: nat, n: nat)
    requires k < n && t < n && k != t
    ensures 0 <= Distance(Next(k, n), t, n) < Distance(k, t, n)
  {
  }

  // List surgery.

  function Insert(list: seq<nat>, k: nat, b: nat): (r: seq<nat>)
    requires k < |list|
  {
    list[..k + 1] + [b] + list[k + 1..]
  }

  function Delete(list: seq<nat>, m: nat): (r: seq<nat>)
    requires m < |list|
  {
    list[..m] + list[m + 1..]
  }

  lemma LinkedFrom(list: seq<nat>, ptr: map<nat, nat>)
    requires forall k :: 0 <= k < |list| ==> list[k] in ptr && ptr[list[k]] == list[Next(k, |list|)]
    ensures Linked(list, ptr)
  {
  }

  lemma LinkInsertAt(list: seq<nat>, ptr: map<nat, nat>, k: nat, b: nat, x: nat)
    requires Linked(list, ptr) && Distinct(list) && k < |list| && b !in list && x <= |list|
    ensures var r, q := Insert(list, k, b), ptr[b := ptr[list[k]]][list[k] := b];
            |r| == |list| + 1 && r[x] in q && q[r[x]] == r[Next(x, |r|)]
  {
    hide Insert, Linked;
    Follow(list, ptr, k);
    InsertAt(list, k, b, x);
    InsertAt(list, k, b, Next(x, |list| + 1));
    if x < k { Follow(list, ptr, x); } else if x > k + 1 { Follow(list, ptr, x - 1); }
  }

  lemma LinkInsert(list: seq<nat>, ptr: map<nat, nat>, k: nat, b: nat)
    requires Linked(list, ptr) && Distinct(list) && k < |list| && b !in list
    ensures Linked(Insert(list, k, b), ptr[b := ptr[list[k]]][list[k] := b])
  {
    hide Insert, Linked;
    Follow(list, ptr, k);
    var r, q := Insert(list, k, b), ptr[b := ptr[list[k]]][list[k] := b];
    InsertAt(list, k, b, 0);
    forall x | 0 <= x < |r| ensures r[x] in q && q[r[x]] == r[Next(x, |r|)] { LinkInsertAt(list, ptr, k, b, x); }
    LinkedFrom(r, q);
  }

  lemma LinkDeleteAt(list: seq<nat>, ptr: map<nat, nat>, m: nat, x: nat)
    requires Linked(list, ptr) && Distinct(list) && 1 <= m < |list| && x < |list| - 1
    ensures list[m] in ptr
    ensures var r, q := Delete(list, m), ptr[list[m - 1] := ptr[list[m]]];
            |r| == |list| - 1 && r[x] in q && q[r[x]] == r[Next(x, |r|)]
  {
    hide Delete, Linked;
    Follow(list, ptr, m);
    DeleteAt(list, m, x);
    DeleteAt(list, m, Next(x, |list| - 1));
    if x < m - 1 { Follow(list, ptr, x); } else if x > m - 1 { Follow(list, ptr, x + 1); }
  }

  lemma LinkDelete(list: seq<nat>, ptr: map<nat, nat>, m: nat)
    requires Linked(list, ptr) && Distinct(list) && 1 <= m < |list|
    ensures Linked(Delete(list, m), ptr[list[m - 1] := ptr[list[m]]])
  {
    hide Delete, Linked;
    Follow(list, ptr, m);
    var r, q := Delete(list, m), ptr[list[m - 1] := ptr[list[m]]];
    DeleteAt(list, m, 0);
    forall x | 0 <= x < |r| ensures r[x] in q && q[r[x]] == r[Next(x, |r|)] { LinkDeleteAt(list, ptr, m, x); }
    LinkedFrom(r, q);
  }

  /** A live block put on the list at its place. */
  lemma FreedOk(list: seq<nat>, size: map<nat, nat>, live: map<nat, nat>, home: map<nat, nat>, base: nat, bp: nat,
                k: nat)
    requires Sorted(list, size, base) && Tiled(list, size, live, home, base) && bp in live && PlaceOf(list, bp, k)
    ensures Sorted(Insert(list, k, bp), size, base) && Tiled(Insert(list, k, bp), size, live - {bp}, home, base)
  {
    Between(list, size, live, home, base, bp, k);
    FreedSorted(list, size, base, bp, k);
    FreedTiled(list, size, live, home, base, bp, k);
  }

  lemma FreedSorted(list: seq<nat>, size: map<nat, nat>, base: nat, bp: nat, k: nat)
    requires Sorted(list, size, base) && PlaceOf(list, bp, k) && bp in size && size[bp] >= 1
    requires list[k] + size[list[k]] <= bp && (k + 1 < |list| ==> bp + size[bp] <= list[k + 1])
    ensures Sorted(Insert(list, k, bp), size, base)
  {
    var r := Insert(list, k, bp);
    forall i, j | 0 <= i < j < |r| ensures r[i] in size && r[i] < r[j] && r[i] + size[r[i]] <= r[j] {
      InsertOrder(list, size, base, bp, k, i, j);
    }
    assert |r| == |list| + 1 && r[0] == base;
    forall i | 0 <= i < |r| ensures r[i] in size && (i >= 1 ==> size[r[i]] >= 1) {
      assert r[i] == if i <= k then list[i] else if i == k + 1 then bp else list[i - 1];
    }
  }

  lemma FreedTiled(list: seq<nat>, size: map<nat, nat>, live: map<nat, nat>, home: map<nat, nat>, base: nat, bp: nat,
                   k: nat)
    requires Sorted(list, size, base) && Tiled(list, size, live, home, base) && bp in live && k < |list|
    requires Sorted(Insert(list, k, bp), size, base)
    ensures Tiled(Insert(list, k, bp), size, live - {bp}, home, base)
  {
    var r := Insert(list, k, bp);
    InsertMembers(list, k, bp);
    forall i | 1 <= i < |r| ensures Tile(home, r[i], size[r[i]]) {
      assert r[i] == if i <= k then list[i] else if i == k + 1 then bp else list[i - 1];
    }
    hide Insert, Tile, Sorted;
    forall x | x in home ensures InBlock(r, size, live - {bp}, base, home[x], x) {
      assert InBlock(list, size, live, base, home[x], x);
    }
  }

  lemma InsertMembers(list: seq<nat>, k: nat, b: nat)
    requires k < |list|
    ensures forall x :: x in Insert(list, k, b) <==> x in list || x == b
  {
    assert list == list[..k + 1] + list[k + 1..];
  }

  lemma InsertOrder(list: seq<nat>, size: map<nat, nat>, base: nat, bp: nat, k: nat, i: nat, j: nat)
    requires Sorted(list, size, base) && PlaceOf(list, bp, k) && bp in size
    requires list[k] + size[list[k]] <= bp && (k + 1 < |list| ==> bp + size[bp] <= list[k + 1])
    requires i < j <= |list|
    ensures var r := Insert(list, k, bp); r[i] in size && r[i] < r[j] && r[i] + size[r[i]] <= r[j]
  {
    var r := Insert(list, k, bp);
    assert r[i] == if i <= k then list[i] else if i == k + 1 then bp else list[i - 1];
    assert r[j] == if j <= k then list[j] else if j == k + 1 then bp else list[j - 1];
  }

  /** All units of [lo, hi) assigned to block b. */
  ghost function Reassign(home: map<nat, nat>, lo: nat, hi: nat, b: nat): (r: map<nat, nat>)
  {
    map x | x in home :: if lo <= x < hi then b else home[x]
  }

  ghost function MergedSize(list: seq<nat>, size: map<nat, nat>, m: nat): (r: map<nat, nat>)
    requires m + 1 < |list| && list[m] in size && list[m + 1] in size
  {
    size[list[m] := size[list[m]] + size[list[m + 1]]]
  }

  ghost function MergedHome(list: seq<nat>, size: map<nat, nat>, home: map<nat, nat>, m: nat): (r: map<nat, nat>)
    requires m + 1 < |list| && list[m + 1] in size
  {
    Reassign(home, list[m + 1], list[m + 1] + size[list[m + 1]], list[m])
  }

  /** Two touching neighbours become one block. */
  lemma MergedOk(list: seq<nat>, size: map<nat, nat>, live: map<nat, nat>, home: map<nat, nat>, base: nat, m: nat)
    requires Sorted(list, size, base) && Tiled(list, size, live, home, base) && 1 <= m && m + 1 < |list|
    requires list[m] + size[list[m]] == list[m + 1]
    ensures Sorted(Delete(list, m + 1), MergedSize(list, size, m), base)
    ensures Tiled(Delete(list, m + 1), MergedSize(list, size, m), live, MergedHome(list, size, home, m), base)
  {
    MergedSorted(list, size, base, m);
    var r, size', home' := Delete(list, m + 1), MergedSize(list, size, m), MergedHome(list, size, home, m);
    forall k | 1 <= k < |r| ensures Tile(home', r[k], size'[r[k]]) { MergedFree(list, size, live, home, base, m, k); }
    forall a | a in live ensures a > base && a !in r && a in size' && size'[a] == live[a] && Tile(home', a, live[a]) {
      MergedLive(list, size, live, home, base, m, a);
    }
    forall x | x in home' ensures x > base && InBlock(r, size', live, base, home'[x], x) {
      MergedUnit(list, size, live, home, base, m, x);
    }
  }

  lemma MergedSorted(list: seq<nat>, size: map<nat, nat>, base: nat, m: nat)
    requires Sorted(list, size, base) && 1 <= m && m + 1 < |list| && list[m] + size[list[m]] == list[m + 1]
    ensures Sorted(Delete(list, m + 1), MergedSize(list, size, m), base)
  {
    var r, size' := Delete(list, m + 1), MergedSize(list, size, m);
    forall i, j | 0 <= i < j < |r| ensures r[i] < r[j] && r[i] + size'[r[i]] <= r[j] {
      assert r[i] == if i <= m then list[i] else list[i + 1];
      assert r[j] == if j <= m then list[j] else list[j + 1];
    }
  }

  lemma MergedFree(list: seq<nat>, size: map<nat, nat>, live: map<nat, nat>, home: map<nat, nat>, base: nat, m: nat,
                   k: nat)
    requires Sorted(list, size, base) && Tiled(list, size, live, home, base) && 1 <= m && m + 1 < |list|
    requires list[m] + size[list[m]] == list[m + 1] && 1 <= k < |list| - 1
    ensures var b := Delete(list, m + 1)[k];
            b in MergedSize(list, size, m) && Tile(MergedHome(list, size, home, m), b, MergedSize(list, size, m)[b])
  {
    var o := if k <= m then k else k + 1;
    assert Delete(list, m + 1)[k] == list[o] && Tile(home, list[o], size[list[o]]);
    assert Tile(home, list[m + 1], size[list[m + 1]]);
  }

  lemma MergedLive(list: seq<nat>, size: map<nat, nat>, live: map<nat, nat>, home: map<nat, nat>, base: nat, m: nat,
                   a: nat)
    requires Sorted(list, size, base) && Tiled(list, size, live, home, base) && 1 <= m && m + 1 < |list| && a in live
    ensures a > base && a !in Delete(list, m + 1) && a in MergedSize(list, size, m)
            && MergedSize(list, size, m)[a] == live[a]
    ensures Tile(MergedHome(list, size, home, m), a, live[a])
  {
    DeleteMembers(list, m + 1, a);
    assert Tile(home, list[m + 1], size[list[m + 1]]) && Tile(home, a, live[a]);
  }

  lemma MergedUnit(list: seq<nat>, size: map<nat, nat>, live: map<nat, nat>, home: map<nat, nat>, base: nat, m: nat,
                   x: nat)
    requires Sorted(list, size, base) && Tiled(list, size, live, home, base) && 1 <= m && m + 1 < |list| && x in home
    requires list[m] + size[list[m]] == list[m + 1]
    ensures x > base && x in MergedHome(list, size, home, m)
    ensures InBlock(Delete(list, m + 1), MergedSize(list, size, m), live, base, MergedHome(list, size, home, m)[x], x)
  {
    hide Delete, LiveTiles, FreeTiles;
    assert InBlock(list, size, live, base, home[x], x);
    DeleteMembers(list, m + 1, home[x]);
    DeleteMembers(list, m + 1, list[m]);
  }

  lemma DeleteMembers(list: seq<nat>, m: nat, x: nat)
    requires m < |list|
    ensures x in Delete(list, m) ==> x in list
    ensures x in list && x != list[m] ==> x in Delete(list, m)
  {
    assert list == list[..m] + [list[m]] + list[m + 1..];
  }

  lemma CoalescedFrom(list: seq<nat>, size: map<nat, nat>, gaps: set<int>)
    requires forall j :: 0 <= j < |list| ==> list[j] in size
    requires forall k {:trigger size[list[k]]} :: 0 <= k && k + 1 < |list| && k !in gaps ==>
               list[k] + size[list[k]] < list[k + 1]
    ensures CoalescedBut(list, size, gaps)
  {
  }

  lemma InsertCoalesced(list: seq<nat>, size: map<nat, nat>, base: nat, k: nat, bp: nat)
    requires Sorted(list, size, base) && CoalescedBut(list, size, {}) && k < |list| && bp in size
    requires Sorted(Insert(list, k, bp), size, base)
    ensures CoalescedBut(Insert(list, k, bp), size, {k, k + 1})
  {
    hide Sorted, Insert, CoalescedBut;
    AllSized(list, size, base);
    AllSized(Insert(list, k, bp), size, base);
    var r := Insert(list, k, bp);
    InsertAt(list, k, bp, 0);
    forall i {:trigger size[r[i]]} | 0 <= i && i + 1 < |r| && i !in {k, k + 1} ensures r[i] + size[r[i]] < r[i + 1] {
      InsertAt(list, k, bp, i);
      InsertAt(list, k, bp, i + 1);
      GapAt(list, size, {}, if i < k then i else i - 1);
    }
    CoalescedFrom(r, size, {k, k + 1});
  }

  lemma InsertAt(list: seq<nat>, k: nat, b: nat, i: nat)
    requires k < |list| && i <= |list|
    ensures |Insert(list, k, b)| == |list| + 1
    ensures Insert(list, k, b)[i] == if i <= k then list[i] else if i == k + 1 then b else list[i - 1]
  {
  }

  lemma MergedSizeAt(list: seq<nat>, size: map<nat, nat>, base: nat, m: nat, o: nat)
    requires Sorted(list, size, base) && m + 1 < |list| && o < |list|
    ensures list[o] in MergedSize(list, size, m)
    ensures MergedSize(list, size, m)[list[o]] == size[list[o]] + if o == m then size[list[m + 1]] else 0
  {
  }

  lemma GapAt(list: seq<nat>, size: map<nat, nat>, gaps: set<int>, k: nat)
    requires (forall j :: 0 <= j < |list| ==> list[j] in size) && CoalescedBut(list, size, gaps)
    requires k + 1 < |list| && k !in gaps
    ensures list[k] + size[list[k]] < list[k + 1]
  {
  }

  lemma MergeGap(list: seq<nat>, size: map<nat, nat>, base: nat, m: nat, gaps: set<int>, i: nat)
    requires Sorted(list, size, base) && 1 <= m && m + 1 < |list| && list[m] + size[list[m]] == list[m + 1]
    requires CoalescedBut(list, size, gaps) && gaps <= {m - 1, m} && i + 2 < |list| && i !in gaps - {m}
    ensures var r, size' := Delete(list, m + 1), MergedSize(list, size, m);
            |r| == |list| - 1 && r[i] in size' && r[i] + size'[r[i]] < r[i + 1]
  {
    hide Delete, MergedSize, CoalescedBut;
    var o := if i <= m then i else i + 1;
    DeleteAt(list, m + 1, i);
    DeleteAt(list, m + 1, i + 1);
    MergedSizeAt(list, size, base, m, o);
    AllSized(list, size, base);
    hide Sorted;
    GapAt(list, size, gaps, if i == m then m + 1 else o);
  }

  lemma MergeCoalesced(list: seq<nat>, size: map<nat, nat>, base: nat, m: nat, gaps: set<int>)
    requires Sorted(list, size, base) && 1 <= m && m + 1 < |list| && list[m] + size[list[m]] == list[m + 1]
    requires CoalescedBut(list, size, gaps) && gaps <= {m - 1, m}
    requires Sorted(Delete(list, m + 1), MergedSize(list, size, m), base)
    ensures CoalescedBut(Delete(list, m + 1), MergedSize(list, size, m), gaps - {m})
  {
    hide Sorted, Delete, MergedSize;
    AllSized(list, size, base);
    var r, size' := Delete(list, m + 1), MergedSize(list, size, m);
    DeleteAt(list, m + 1, 0);
    AllSized(r, size', base);
    forall i {:trigger size'[r[i]]} | 0 <= i && i + 1 < |r| && i !in gaps - {m} ensures r[i] + size'[r[i]] < r[i + 1] {
      MergeGap(list, size, base, m, gaps, i);
    }
  }

  lemma DistinctWhenSorted(list: seq<nat>, size: map<nat, nat>, base: nat)
    requires Sorted(list, size, base)
    ensures Distinct(list)
  {
  }

  /** The allocator's state as one value. */
  datatype Arena = Arena(list: seq<nat>, ptr: map<nat, nat>, size: map<nat, nat>,
                         live: map<nat, nat>, home: map<nat, nat>)

  /** Well formed, and coalesced except perhaps right after the positions in gaps. */
  ghost predicate Good(a: Arena, base: nat, gaps: set<int>)
  {
    && Linked(a.list, a.ptr) && Sorted(a.list, a.size, base) && Tiled(a.list, a.size, a.live, a.home, base)
    && CoalescedBut(a.list, a.size, gaps)
  }

  /** No unit appears, disappears, or leaves a live block. */
  ghost predicate SameUnits(a: Arena, b: Arena)
  {
    b.home.Keys == a.home.Keys && forall x :: x in a.home && a.home[x] in b.live ==> b.home[x] == a.home[x]
  }

  ghost function Released(a: Arena, k: nat, bp: nat): (r: Arena)
    requires k < |a.list| && a.list[k] in a.ptr
  {
    Arena(Insert(a.list, k, bp), a.ptr[bp := a.ptr[a.list[k]]][a.list[k] := bp], a.size, a.live - {bp}, a.home)
  }

  ghost function Joined(a: Arena, m: nat): (r: Arena)
    requires m + 1 < |a.list| && a.list[m] in a.size && a.list[m + 1] in a.size && a.list[m + 1] in a.ptr
  {
    Arena(Delete(a.list, m + 1), a.ptr[a.list[m] := a.ptr[a.list[m + 1]]], MergedSize(a.list, a.size, m), a.live,
          MergedHome(a.list, a.size, a.home, m))
  }

  lemma ReleasedOk(a: Arena, base: nat, k: nat, bp: nat)
    requires Good(a, base, {}) && bp in a.live && PlaceOf(a.list, bp, k)
    ensures Good(Released(a, k, bp), base, {k, k + 1})
  {
    FreedOk(a.list, a.size, a.live, a.home, base, bp, k);
    DistinctWhenSorted(a.list, a.size, base);
    LinkInsert(a.list, a.ptr, k, bp);
    InsertCoalesced(a.list, a.size, base, k, bp);
  }

  lemma SameUnitsFrom(a: Arena, b: Arena)
    requires b.home.Keys == a.home.Keys && b.live == a.live && forall x :: x in a.home && a.home[x] in a.live ==>
               b.home[x] == a.home[x]
    ensures SameUnits(a, b)
  {
  }

  lemma JoinedOk(a: Arena, base: nat, m: nat, gaps: set<int>)
    requires Good(a, base, gaps) && gaps <= {m - 1, m} && 1 <= m && m + 1 < |a.list|
    requires a.list[m] + a.size[a.list[m]] == a.list[m + 1]
    ensures Good(Joined(a, m), base, gaps - {m}) && SameUnits(a, Joined(a, m))
  {
    hide Linked, Tiled, CoalescedBut, MergedSize, MergedHome, Delete, SameUnits;
    AllSized(a.list, a.size, base);
    DistinctWhenSorted(a.list, a.size, base);
    Follow(a.list, a.ptr, m + 1);
    LinkDelete(a.list, a.ptr, m + 1);
    MergedOk(a.list, a.size, a.live, a.home, base, m);
    MergeCoalesced(a.list, a.size, base, m, gaps);
    KeepsLive(a.list, a.size, a.live, a.home, base, m);
    SameUnitsFrom(a, Joined(a, m));
  }

  lemma KeepsLive(list: seq<nat>, size: map<nat, nat>, live: map<nat, nat>, home: map<nat, nat>, base: nat, m: nat)
    requires Sorted(list, size, base) && Tiled(list, size, live, home, base) && 1 <= m && m + 1 < |list|
    ensures MergedHome(list, size, home, m).Keys == home.Keys
    ensures forall x :: x in home && home[x] in live ==> MergedHome(list, size, home, m)[x] == home[x]
  {
    assert Tile(home, list[m + 1], size[list[m + 1]]);
  }

  /** Blocks that do not touch leave no gap to account for. */
  lemma NotTouching(a: Arena, base: nat, m: nat, gaps: set<int>)
    requires Good(a, base, gaps) && m < |a.list| && (m + 1 < |a.list| ==>
                                                       a.list[m] + a.size[a.list[m]] != a.list[m + 1])
    ensures Good(a, base, gaps - {m})
  {
  }

  /** The first half of free: bp is on the list, joined with its upper neighbour if they touch. */
  ghost function JoinedUpper(a: Arena, base: nat, k: nat): (r: Arena)
    requires Good(a, base, {k, k + 1}) && k + 1 < |a.list|
  {
    if k + 2 < |a.list| && a.list[k + 1] + a.size[a.list[k + 1]] == a.list[k + 2] then Joined(a, k + 1) else a
  }

  ghost function JoinedLower(a: Arena, base: nat, k: nat): (r: Arena)
    requires Good(a, base, {k}) && k + 1 < |a.list|
  {
    if a.list[k] + a.size[a.list[k]] == a.list[k + 1] then Joined(a, k) else a
  }

  lemma JoinedUpperOk(a: Arena, base: nat, k: nat)
    requires Good(a, base, {k, k + 1}) && k + 1 < |a.list|
    ensures var r := JoinedUpper(a, base, k);
            Good(r, base, {k}) && SameUnits(a, r) && k + 1 < |r.list| && r.list[k] == a.list[k]
            && r.list[k + 1] == a.list[k + 1]
  {
    hide Linked, Tiled, CoalescedBut, MergedSize, MergedHome, SameUnits;
    var gaps: set<int> := {k, k + 1};
    assert gaps - {k + 1} == {k};
    SameUnitsRefl(a);
    if k + 2 < |a.list| && a.list[k + 1] + a.size[a.list[k + 1]] == a.list[k + 2] {
      JoinedOk(a, base, k + 1, gaps);
    } else {
      NotTouching(a, base, k + 1, gaps);
    }
  }

  lemma SameUnitsRefl(a: Arena)
    ensures SameUnits(a, a)
  {
  }

  lemma JoinedLowerOk(a: Arena, base: nat, k: nat)
    requires Good(a, base, {k}) && k + 1 < |a.list|
    ensures var r := JoinedLower(a, base, k);
            Good(r, base, {}) && SameUnits(a, r) && a.list[k] in r.list
  {
    var gaps: set<int> := {k};
    assert gaps - {k} == {};
    if a.list[k] + a.size[a.list[k]] == a.list[k + 1] {
      assert k >= 1;
      JoinedOk(a, base, k, gaps);
      assert Delete(a.list, k + 1)[k] == a.list[k];
    } else {
      NotTouching(a, base, k, gaps);
    }
  }

  lemma UnitsChain(a: Arena, b: Arena, c: Arena, d: Arena)
    requires b.home == a.home && c.live == b.live && d.live == c.live && SameUnits(b, c) && SameUnits(c, d)
    ensures SameUnits(a, d)
  {
  }

  /** What p, bp and p's successor are on the list once bp is on it. */
  lemma Neighbours(a: Arena, base: nat, k: nat, bp: nat)
    requires Good(a, base, {}) && PlaceOf(a.list, bp, k) && bp in a.live
    ensures k < |a.list| && a.list[k] >= base && bp in a.size && bp != a.list[k] && a.list[k] in a.size
            && a.list[k] in a.ptr
    ensures var nx, r := a.ptr[a.list[k]], Released(a, k, bp);
            && |r.list| == |a.list| + 1 && r.list[k] == a.list[k] && r.list[k + 1] == bp
            && nx in a.size && nx in a.ptr && nx != bp
            && (if k + 2 < |r.list| then r.list[k + 2] == nx && nx != a.list[k] else bp + a.size[bp] != nx)
  {
    hide Tiled, CoalescedBut, Linked, Insert;
    LiveSize(a, base, bp);
    Follow(a.list, a.ptr, k);
    Follow(a.list, a.ptr, Next(k, |a.list|));
    InsertAt(a.list, k, bp, k);
    InsertAt(a.list, k, bp, k + 1);
    if k + 1 < |a.list| { InsertAt(a.list, k, bp, k + 2); }
  }

  /** The assignments of free to bp's header are those of the upper join. */
  lemma UpperMatches(a: Arena, base: nat, k: nat, bp: nat)
    requires Good(a, base, {}) && bp in a.live && PlaceOf(a.list, bp, k) && Good(Released(a, k, bp), base, {k, k + 1})
    ensures var p := a.list[k];
            var nx := a.ptr[p];
            var c := JoinedUpper(Released(a, k, bp), base, k);
            && p != bp && bp in a.size && p in a.size && nx in a.size && nx in a.ptr && c.live == a.live - {bp}
            && (if bp + a.size[bp] == nx then c.size == a.size[bp := a.size[bp] + a.size[nx]]
                                              && c.ptr == a.ptr[bp := a.ptr[nx]][p := bp]
                else c.size == a.size && c.ptr == a.ptr[bp := nx][p := bp])
  {
    hide Good, PlaceOf, Insert, Delete, MergedHome, MergedSize, JoinedUpper;
    Neighbours(a, base, k, bp);
    var p, r := a.list[k], Released(a, k, bp);
    var nx := a.ptr[p];
    JoinedUpperIs(r, base, k);
    if bp + a.size[bp] == nx {
      MergedSizeIs(r.list, r.size, k + 1);
      MapTwice(a.ptr, bp, nx, a.ptr[nx], p);
    }
  }

  lemma JoinedUpperIs(a: Arena, base: nat, k: nat)
    requires Good(a, base, {k, k + 1}) && k + 1 < |a.list|
    ensures a.list[k + 1] in a.size && (k + 2 < |a.list| ==> a.list[k + 2] in a.size && a.list[k + 2] in a.ptr)
    ensures JoinedUpper(a, base, k)
            == if k + 2 < |a.list| && a.list[k + 1] + a.size[a.list[k + 1]] == a.list[k + 2] then Joined(a, k + 1)
                else a
  {
  }

  lemma MergedSizeIs(list: seq<nat>, size: map<nat, nat>, m: nat)
    requires m + 1 < |list| && list[m] in size && list[m + 1] in size
    ensures MergedSize(list, size, m) == size[list[m] := size[list[m]] + size[list[m + 1]]]
  {
  }

  lemma MapTwice(m: map<nat, nat>, b: nat, x: nat, y: nat, p: nat)
    requires p != b
    ensures m[b := x][p := b][b := y] == m[b := y][p := b]
  {
  }

  lemma JoinedLowerIs(c: Arena, base: nat, k: nat)
    requires Good(c, base, {k}) && k + 1 < |c.list|
    ensures c.list[k] in c.size && c.list[k + 1] in c.size && c.list[k + 1] in c.ptr
    ensures JoinedLower(c, base, k) == if c.list[k] + c.size[c.list[k]] == c.list[k + 1] then Joined(c, k) else c
  {
    hide Tiled, CoalescedBut, MergedHome, MergedSize, Delete;
  }

  /** The assignments of free to p's header are those of the lower join. */
  lemma LowerMatches(c: Arena, base: nat, k: nat)
    requires Good(c, base, {k}) && k + 1 < |c.list|
    ensures var p, b, d := c.list[k], c.list[k + 1], JoinedLower(c, base, k);
            && p in c.size && b in c.size && b in c.ptr && d.live == c.live
            && (if p + c.size[p] == b then d.size == c.size[p := c.size[p] + c.size[b]] && d.ptr == c.ptr[p := c.ptr[b]]
                else d.size == c.size && d.ptr == c.ptr)
  {
    hide Good, JoinedLower, MergedHome, MergedSize, Delete;
    JoinedLowerIs(c, base, k);
    if c.list[k] + c.size[c.list[k]] == c.list[k + 1] { MergedSizeIs(c.list, c.size, k); }
  }

  /** The headers after free, in the order the code assigns them. */
  ghost function UpperHeaders(ptr: map<nat, nat>, size: map<nat, nat>, p: nat,
                              bp: nat): (r: (map<nat, nat>, map<nat, nat>))
    requires p in ptr && ptr[p] in ptr && ptr[p] in size && bp in size
  {
    if bp + size[bp] == ptr[p] then (ptr[bp := ptr[ptr[p]]], size[bp := size[bp] + size[ptr[p]]])
    else (ptr[bp := ptr[p]], size)
  }

  ghost function LowerHeaders(ptr: map<nat, nat>, size: map<nat, nat>, p: nat,
                              bp: nat): (r: (map<nat, nat>, map<nat, nat>))
    requires bp in ptr && bp in size && p in size
  {
    if p + size[p] == bp then (ptr[p := ptr[bp]], size[p := size[p] + size[bp]]) else (ptr[p := bp], size)
  }

  /** Block at position i of the list contains [lo, hi). */
  ghost predicate Covers(a: Arena, i: nat, lo: nat, hi: nat)
  {
    i < |a.list| && a.list[i] in a.size && a.list[i] <= lo && hi <= a.list[i] + a.size[a.list[i]]
  }

  lemma UpperCover(a: Arena, base: nat, k: nat, bp: nat)
    requires Good(a, base, {}) && bp in a.live && PlaceOf(a.list, bp, k) && Good(Released(a, k, bp), base, {k, k + 1})
    ensures var c := JoinedUpper(Released(a, k, bp), base, k);
            bp in a.size && bp in c.size && c.size[bp] >= a.size[bp]
  {
    UpperMatches(a, base, k, bp);
  }

  lemma LowerCover(c: Arena, base: nat, k: nat)
    requires Good(c, base, {k}) && k + 1 < |c.list|
    ensures var p, b := c.list[k], c.list[k + 1];
            p in c.size && b in c.size
            && Covers(JoinedLower(c, base, k), if p + c.size[p] == b then k else k + 1, b, b + c.size[b])
  {
    LowerMatches(c, base, k);
    if c.list[k] + c.size[c.list[k]] == c.list[k + 1] {
      DeleteAt(c.list, k + 1, k);
    }
  }

  lemma FreeResult(a: Arena, base: nat, k: nat, bp: nat) returns (d: Arena, at: nat)
    requires Good(a, base, {}) && bp in a.live && PlaceOf(a.list, bp, k)
    ensures Good(d, base, {}) && SameUnits(a, d) && d.live == a.live - {bp} && a.list[k] in d.list && a.list[k] >= base
    ensures bp in a.size && Covers(d, at, bp, bp + a.size[bp])
    ensures var p := a.list[k];
            && p != bp && p in a.ptr && a.ptr[p] in a.ptr && a.ptr[p] in a.size && p in a.size
            && var (ptr1, size1) := UpperHeaders(a.ptr, a.size, p, bp);
               LowerHeaders(ptr1, size1, p, bp) == (d.ptr, d.size)
  {
    hide Good, PlaceOf, JoinedUpper, JoinedLower, SameUnits;
    Neighbours(a, base, k, bp);
    ReleasedOk(a, base, k, bp);
    var b := Released(a, k, bp);
    JoinedUpperOk(b, base, k);
    var c := JoinedUpper(b, base, k);
    JoinedLowerOk(c, base, k);
    d := JoinedLower(c, base, k);
    UpperCover(a, base, k, bp);
    LowerCover(c, base, k);
    UpperMatches(a, base, k, bp);
    LowerMatches(c, base, k);
    UnitsChain(a, b, c, d);
    at := if c.list[k] + c.size[c.list[k]] == c.list[k + 1] then k else k + 1;
    hide Released;
    var p := a.list[k];
    var (ptr1, size1) := UpperHeaders(a.ptr, a.size, p, bp);
    assert c.size == size1 && c.ptr == ptr1[p := bp];
    assert ptr1[p := bp][p := ptr1[bp]] == ptr1[p := ptr1[bp]];
  }

  // Allocation.

  /** The whole block at position q is handed out. */
  ghost function TakenWhole(a: Arena, q: nat): (r: Arena)
    requires 1 <= q < |a.list| && a.list[q] in a.ptr && a.list[q] in a.size
  {
    Arena(Delete(a.list, q), a.ptr[a.list[q - 1] := a.ptr[a.list[q]]], a.size, a.live[a.list[q] := a.size[a.list[q]]],
          a.home)
  }

  /** The last n units of the block at position q are handed out. */
  ghost function TakenTail(a: Arena, q: nat, n: nat): (r: Arena)
    requires 1 <= q < |a.list| && a.list[q] in a.size && a.size[a.list[q]] > n
  {
    var b := a.list[q] + (a.size[a.list[q]] - n);
    Arena(a.list, a.ptr, TailSize(a.size, a.list[q], n), a.live[b := n], Reassign(a.home, b, b + n, b))
  }

  lemma DeleteAt(list: seq<nat>, m: nat, i: nat)
    requires m < |list| && i < |list| - 1
    ensures |Delete(list, m)| == |list| - 1 && Delete(list, m)[i] == list[if i < m then i else i + 1]
  {
  }

  lemma WholeSorted(list: seq<nat>, size: map<nat, nat>, base: nat, q: nat)
    requires Sorted(list, size, base) && 1 <= q < |list|
    ensures Sorted(Delete(list, q), size, base) && list[q] !in Delete(list, q)
  {
    var r := Delete(list, q);
    hide Delete;
    DeleteAt(list, q, 0);
    forall i, j | 0 <= i < j < |r| ensures r[i] < r[j] && r[i] in size && r[i] + size[r[i]] <= r[j] {
      DeleteAt(list, q, i);
      DeleteAt(list, q, j);
    }
    forall i | 0 <= i < |r| ensures r[i] in size && r[i] != list[q] && (i >= 1 ==> size[r[i]] >= 1) {
      DeleteAt(list, q, i);
    }
  }

  lemma WholeCoalesced(list: seq<nat>, size: map<nat, nat>, base: nat, q: nat)
    requires Sorted(list, size, base) && CoalescedBut(list, size, {}) && 1 <= q < |list|
    requires forall k :: 0 <= k < |Delete(list, q)| ==> Delete(list, q)[k] in size
    ensures CoalescedBut(Delete(list, q), size, {})
  {
    var r := Delete(list, q);
    DeleteAt(list, q, 0);
    hide Delete, Sorted;
    AfterBase(list, size, base, q);
    forall i {:trigger size[r[i]]} | 0 <= i && i + 1 < |r| ensures r[i] + size[r[i]] < r[i + 1] {
      DeleteAt(list, q, i);
      DeleteAt(list, q, i + 1);
      var o := if i < q then i else i + 1;
      assert list[o] + size[list[o]] < list[o + 1];
      if i == q - 1 { assert list[q] + size[list[q]] < list[q + 1]; }
    }
  }

  lemma AfterBase(list: seq<nat>, size: map<nat, nat>, base: nat, q: nat)
    requires Sorted(list, size, base) && 1 <= q < |list|
    ensures (forall k :: 0 <= k < |list| ==> list[k] in size) && list[q] > base
  {
  }

  lemma AllSized(list: seq<nat>, size: map<nat, nat>, base: nat)
    requires Sorted(list, size, base)
    ensures forall k :: 0 <= k < |list| ==> list[k] in size
  {
  }

  lemma FreeTile(list: seq<nat>, size: map<nat, nat>, home: map<nat, nat>, q: nat)
    requires (forall k :: 0 <= k < |list| ==> list[k] in size) && FreeTiles(list, size, home) && 1 <= q < |list|
    ensures Tile(home, list[q], size[list[q]])
  {
    hide Tile;
  }

  lemma WholeUnit(list: seq<nat>, size: map<nat, nat>, live: map<nat, nat>, base: nat, q: nat, b: nat, x: nat)
    requires q < |list| && list[q] in size && InBlock(list, size, live, base, b, x)
    ensures InBlock(Delete(list, q), size, live[list[q] := size[list[q]]], base, b, x)
  {
    hide Delete;
    DeleteMembers(list, q, b);
  }

  lemma WholeTiled(list: seq<nat>, size: map<nat, nat>, live: map<nat, nat>, home: map<nat, nat>, base: nat, q: nat)
    requires Sorted(list, size, base) && Tiled(list, size, live, home, base) && 1 <= q < |list|
    requires Sorted(Delete(list, q), size, base) && list[q] !in Delete(list, q)
    ensures Tiled(Delete(list, q), size, live[list[q] := size[list[q]]], home, base)
  {
    hide Delete, Tile, Sorted, InBlock;
    AfterBase(list, size, base, q);
    AllSized(Delete(list, q), size, base);
    var r, b := Delete(list, q), list[q];
    var live' := live[b := size[b]];
    DeleteAt(list, q, 0);
    forall i | 1 <= i < |r| ensures Tile(home, r[i], size[r[i]]) {
      DeleteAt(list, q, i);
      FreeTile(list, size, home, if i < q then i else i + 1);
    }
    FreeTile(list, size, home, q);
    forall x | x in live' ensures x > base && x !in r && x in size && size[x] == live'[x] && Tile(home, x, live'[x]) {
      DeleteMembers(list, q, x);
    }
    forall x | x in home ensures x > base && InBlock(r, size, live', base, home[x], x) {
      WholeUnit(list, size, live, base, q, home[x], x);
    }
  }

  lemma TakenWholeOk(a: Arena, base: nat, q: nat)
    requires Good(a, base, {}) && 1 <= q < |a.list|
    ensures Good(TakenWhole(a, q), base, {}) && a.list[q] !in a.live
  {
    DistinctWhenSorted(a.list, a.size, base);
    LinkDelete(a.list, a.ptr, q);
    WholeSorted(a.list, a.size, base, q);
    WholeCoalesced(a.list, a.size, base, q);
    WholeTiled(a.list, a.size, a.live, a.home, base, q);
  }

  /** A header in the middle of a free block is no block of its own. */
  lemma TailNew(list: seq<nat>, size: map<nat, nat>, live: map<nat, nat>, home: map<nat, nat>, base: nat, q: nat,
                b: nat)
    requires Sorted(list, size, base) && Tiled(list, size, live, home, base) && 1 <= q < |list|
    requires list[q] < b < list[q] + size[list[q]]
    ensures b !in live && b !in list
  {
    assert Tile(home, list[q], size[list[q]]) && home[b] == list[q];
  }

  lemma TailSorted(list: seq<nat>, size: map<nat, nat>, base: nat, q: nat, n: nat)
    requires Sorted(list, size, base) && CoalescedBut(list, size, {}) && 1 <= q < |list| && 1 <= n < size[list[q]]
    requires list[q] + (size[list[q]] - n) !in list
    ensures Sorted(list, TailSize(size, list[q], n), base) && CoalescedBut(list, TailSize(size, list[q], n), {})
  {
    var size' := TailSize(size, list[q], n);
    forall k | 0 <= k < |list| ensures list[k] in size' && size'[list[k]] == size[list[k]] - if k == q then n else 0 {}
    forall k {:trigger size'[list[k]]} | 0 <= k && k + 1 < |list| ensures list[k] + size'[list[k]] < list[k + 1] {
      assert list[k] + size[list[k]] < list[k + 1];
    }
  }

  ghost function TailSize(size: map<nat, nat>, p: nat, n: nat): (r: map<nat, nat>)
    requires p in size && n <= size[p]
  {
    size[p := size[p] - n][p + (size[p] - n) := n]
  }

  lemma TilesMeet(home: map<nat, nat>, p: nat, s: nat, x: nat, m: nat, y: nat)
    requires Tile(home, p, s) && Tile(home, x, m) && p <= y < p + s && x <= y < x + m
    ensures p == x
  {
    assert home[y] == p;
    assert home[y] == x;
  }

  /** Blocks other than p keep their units when part of p is assigned anew. */
  lemma TileApart(home: map<nat, nat>, p: nat, s: nat, lo: nat, hi: nat, b: nat, x: nat, m: nat)
    requires Tile(home, p, s) && Tile(home, x, m) && x != p && p <= lo && hi <= p + s
    ensures Tile(Reassign(home, lo, hi, b), x, m)
  {
    var home' := Reassign(home, lo, hi, b);
    forall y: nat | x <= y < x + m ensures y in home' && home'[y] == x {
      if p <= y < p + s { TilesMeet(home, p, s, x, m, y); }
    }
  }

  /** The two parts of a divided block. */
  lemma TileDivided(home: map<nat, nat>, p: nat, s: nat, n: nat)
    requires Tile(home, p, s) && 1 <= n < s
    ensures var b := p + (s - n);
            Tile(Reassign(home, b, b + n, b), p, s - n) && Tile(Reassign(home, b, b + n, b), b, n)
  {
  }

  lemma TailSizeAt(size: map<nat, nat>, p: nat, n: nat, x: nat)
    requires p in size && 1 <= n < size[p] && x in size
    ensures var b := p + (size[p] - n); var r := TailSize(size, p, n);
            x in r && b in r && b != p && r[b] == n && (x != b ==> r[x] == if x == p then size[p] - n else size[x])
  {
  }

  lemma TailFree(list: seq<nat>, size: map<nat, nat>, live: map<nat, nat>, home: map<nat, nat>, base: nat, q: nat,
                 n: nat, b: nat, k: nat)
    requires Sorted(list, size, base) && Tiled(list, size, live, home, base) && 1 <= q < |list|
             && 1 <= n < size[list[q]]
    requires b == list[q] + (size[list[q]] - n) && b !in live && b !in list && 1 <= k < |list|
    ensures list[k] in TailSize(size, list[q], n)
    ensures Tile(Reassign(home, b, b + n, b), list[k], TailSize(size, list[q], n)[list[k]])
  {
    hide TailSize, Reassign, Tile, UnitsInBlocks, LiveTiles;
    var p := list[q];
    TailSizeAt(size, p, n, list[k]);
    if k == q {
      TileDivided(home, p, size[p], n);
    } else {
      TileApart(home, p, size[p], b, b + n, b, list[k], size[list[k]]);
    }
  }

  lemma TailLive(list: seq<nat>, size: map<nat, nat>, live: map<nat, nat>, home: map<nat, nat>, base: nat, q: nat,
                 n: nat, b: nat, x: nat)
    requires Sorted(list, size, base) && Tiled(list, size, live, home, base) && 1 <= q < |list|
             && 1 <= n < size[list[q]]
    requires b == list[q] + (size[list[q]] - n) && b !in live && b !in list && x in live[b := n]
    ensures x > base && x !in list && x in TailSize(size, list[q], n)
            && TailSize(size, list[q], n)[x] == live[b := n][x]
    ensures Tile(Reassign(home, b, b + n, b), x, live[b := n][x])
  {
    hide TailSize, Reassign, Tile, UnitsInBlocks;
    var p := list[q];
    TailSizeAt(size, p, n, if x == b then p else x);
    if x == b { TileDivided(home, p, size[p], n); } else { TileApart(home, p, size[p], b, b + n, b, x, live[x]); }
  }

  lemma TailUnit(list: seq<nat>, size: map<nat, nat>, live: map<nat, nat>, home: map<nat, nat>, base: nat, q: nat,
                 n: nat, b: nat, x: nat)
    requires Sorted(list, size, base) && Tiled(list, size, live, home, base) && 1 <= q < |list|
             && 1 <= n < size[list[q]]
    requires b == list[q] + (size[list[q]] - n) && b !in live && b !in list && x in home
    ensures x > base && x in Reassign(home, b, b + n, b)
    ensures InBlock(list, TailSize(size, list[q], n), live[b := n], base, Reassign(home, b, b + n, b)[x], x)
  {
    assert InBlock(list, size, live, base, home[x], x);
    assert Tile(home, list[q], size[list[q]]);
  }

  lemma TailTiled(list: seq<nat>, size: map<nat, nat>, live: map<nat, nat>, home: map<nat, nat>, base: nat, q: nat,
                  n: nat, b: nat)
    requires Sorted(list, size, base) && Tiled(list, size, live, home, base) && 1 <= q < |list|
             && 1 <= n < size[list[q]]
    requires b == list[q] + (size[list[q]] - n) && b !in live && b !in list
    requires forall k :: 0 <= k < |list| ==> list[k] in TailSize(size, list[q], n)
    ensures Tiled(list, TailSize(size, list[q], n), live[b := n], Reassign(home, b, b + n, b), base)
  {
    TailTilesFree(list, size, live, home, base, q, n, b);
    TailTilesLive(list, size, live, home, base, q, n, b);
    TailUnits(list, size, live, home, base, q, n, b);
  }

  lemma TailTilesFree(list: seq<nat>, size: map<nat, nat>, live: map<nat, nat>, home: map<nat, nat>, base: nat, q: nat,
                      n: nat, b: nat)
    requires Sorted(list, size, base) && Tiled(list, size, live, home, base) && 1 <= q < |list|
             && 1 <= n < size[list[q]]
    requires b == list[q] + (size[list[q]] - n) && b !in live && b !in list
    requires forall k :: 0 <= k < |list| ==> list[k] in TailSize(size, list[q], n)
    ensures FreeTiles(list, TailSize(size, list[q], n), Reassign(home, b, b + n, b))
  {
    var p := list[q];
    hide TailSize, Reassign, Tile, Sorted, Tiled;
    forall k | 1 <= k < |list| ensures Tile(Reassign(home, b, b + n, b), list[k], TailSize(size, p, n)[list[k]]) {
      TailFree(list, size, live, home, base, q, n, b, k);
    }
  }

  lemma TailTilesLive(list: seq<nat>, size: map<nat, nat>, live: map<nat, nat>, home: map<nat, nat>, base: nat, q: nat,
                      n: nat, b: nat)
    requires Sorted(list, size, base) && Tiled(list, size, live, home, base) && 1 <= q < |list|
             && 1 <= n < size[list[q]]
    requires b == list[q] + (size[list[q]] - n) && b !in live && b !in list
    ensures LiveTiles(list, TailSize(size, list[q], n), live[b := n], Reassign(home, b, b + n, b), base)
  {
    var size', live', home' := TailSize(size, list[q], n), live[b := n], Reassign(home, b, b + n, b);
    hide TailSize, Reassign, Tile, Sorted, Tiled;
    forall x | x in live'
      ensures x > base && x !in list && x in size' && size'[x] == live'[x] && Tile(home', x, live'[x])
    {
      TailLive(list, size, live, home, base, q, n, b, x);
    }
  }

  lemma TailUnits(list: seq<nat>, size: map<nat, nat>, live: map<nat, nat>, home: map<nat, nat>, base: nat, q: nat,
                  n: nat, b: nat)
    requires Sorted(list, size, base) && Tiled(list, size, live, home, base) && 1 <= q < |list|
             && 1 <= n < size[list[q]]
    requires b == list[q] + (size[list[q]] - n) && b !in live && b !in list
    ensures UnitsInBlocks(list, TailSize(size, list[q], n), live[b := n], Reassign(home, b, b + n, b), base)
  {
    var size', live', home' := TailSize(size, list[q], n), live[b := n], Reassign(home, b, b + n, b);
    assert home'.Keys == home.Keys;
    hide TailSize, Reassign, Tile, Sorted, Tiled, InBlock;
    forall x | x in home' ensures x > base && InBlock(list, size', live', base, home'[x], x) {
      TailUnit(list, size, live, home, base, q, n, b, x);
    }
  }

  lemma TakenTailOk(a: Arena, base: nat, q: nat, n: nat, b: nat)
    requires Good(a, base, {}) && 1 <= q < |a.list| && 1 <= n < a.size[a.list[q]]
    requires b == a.list[q] + (a.size[a.list[q]] - n) && b !in a.live && b !in a.list
    ensures Good(TakenTail(a, q, n), base, {})
  {
    hide Tiled, Linked, TailSize, Reassign, CoalescedBut;
    TailSorted(a.list, a.size, base, q, n);
    TailTiled(a.list, a.size, a.live, a.home, base, q, n, b);
  }

  // More memory.

  ghost function AddUnits(home: map<nat, nat>, b: nat, n: nat): (r: map<nat, nat>)
    ensures forall x :: x in r <==> x in home || b <= x < b + n
    ensures forall x :: x in r ==> r[x] == if b <= x < b + n then b else home[x]
  {
    if n == 0 then home else AddUnits(home, b, n - 1)[b + n - 1 := b]
  }

  /** n units at b that the allocator does not have yet, above base. */
  ghost predicate Unknown(home: map<nat, nat>, base: nat, b: nat, n: nat)
  {
    b > base && forall x :: b <= x < b + n ==> x !in home
  }

  ghost function Extended(a: Arena, b: nat, n: nat): (r: Arena)
  {
    Arena(a.list, a.ptr, a.size[b := n], a.live[b := n], AddUnits(a.home, b, n))
  }

  lemma ExtendedNew(list: seq<nat>, size: map<nat, nat>, live: map<nat, nat>, home: map<nat, nat>, base: nat, b: nat,
                    n: nat)
    requires Sorted(list, size, base) && Tiled(list, size, live, home, base) && Unknown(home, base, b, n) && n >= 1
    ensures b !in live && b !in list
  {
    assert b !in home;
    forall x | x in live ensures x in home { assert Tile(home, x, live[x]); }
    forall k | 1 <= k < |list| ensures list[k] in home { assert Tile(home, list[k], size[list[k]]); }
  }

  lemma ExtendedSorted(list: seq<nat>, size: map<nat, nat>, base: nat, b: nat, n: nat)
    requires Sorted(list, size, base) && CoalescedBut(list, size, {}) && b !in list
    ensures Sorted(list, size[b := n], base) && CoalescedBut(list, size[b := n], {})
  {
    var size' := size[b := n];
    forall k | 0 <= k < |list| ensures list[k] in size' && size'[list[k]] == size[list[k]] {}
    forall k {:trigger size'[list[k]]} | 0 <= k && k + 1 < |list| ensures list[k] + size'[list[k]] < list[k + 1] {
      assert list[k] + size[list[k]] < list[k + 1];
    }
  }

  /** Blocks keep their units when new units come. */
  lemma TileStays(home: map<nat, nat>, base: nat, b: nat, n: nat, x: nat, m: nat)
    requires Tile(home, x, m) && Unknown(home, base, b, n)
    ensures Tile(AddUnits(home, b, n), x, m)
  {
    hide AddUnits;
    var home' := AddUnits(home, b, n);
    forall y | x <= y < x + m ensures y in home' && home'[y] == x { assert y in home; }
  }

  lemma UnknownAbove(home: map<nat, nat>, base: nat, b: nat, n: nat)
    requires Unknown(home, base, b, n)
    ensures b > base
  {
  }

  lemma ExtendedLive(list: seq<nat>, size: map<nat, nat>, live: map<nat, nat>, home: map<nat, nat>, base: nat, b: nat,
                     n: nat)
    requires LiveTiles(list, size, live, home, base) && Unknown(home, base, b, n) && n >= 1 && b !in live && b !in list
    ensures LiveTiles(list, size[b := n], live[b := n], AddUnits(home, b, n), base)
  {
    hide AddUnits, Unknown;
    var live', home' := live[b := n], AddUnits(home, b, n);
    assert b > base by { UnknownAbove(home, base, b, n); }
    forall x | x in live' ensures Tile(home', x, live'[x]) {
      if x != b { TileStays(home, base, b, n, x, live[x]); }
    }
  }

  lemma ExtendedFree(list: seq<nat>, size: map<nat, nat>, home: map<nat, nat>, base: nat, b: nat, n: nat)
    requires Sorted(list, size, base) && FreeTiles(list, size, home) && Unknown(home, base, b, n) && b !in list
    ensures FreeTiles(list, size[b := n], AddUnits(home, b, n))
  {
    hide AddUnits, Unknown, Tile;
    var home', size' := AddUnits(home, b, n), size[b := n];
    forall k | 1 <= k < |list| ensures Tile(home', list[k], size'[list[k]]) {
      TileStays(home, base, b, n, list[k], size[list[k]]);
    }
  }

  lemma ExtendedUnits(list: seq<nat>, size: map<nat, nat>, live: map<nat, nat>, home: map<nat, nat>, base: nat, b: nat,
                      n: nat)
    requires UnitsInBlocks(list, size, live, home, base) && Unknown(home, base, b, n) && b !in live && b !in list
    ensures UnitsInBlocks(list, size[b := n], live[b := n], AddUnits(home, b, n), base)
  {
    var home' := AddUnits(home, b, n);
    hide AddUnits;
    forall x | x in home' ensures x > base && InBlock(list, size[b := n], live[b := n], base, home'[x], x) {
      if x in home { assert InBlock(list, size, live, base, home[x], x); }
    }
  }

  lemma ExtendedOk(a: Arena, base: nat, b: nat, n: nat)
    requires Good(a, base, {}) && Unknown(a.home, base, b, n) && n >= 1
    ensures Good(Extended(a, b, n), base, {}) && b !in a.live
  {
    ExtendedNew(a.list, a.size, a.live, a.home, base, b, n);
    hide Linked, CoalescedBut, Unknown, LiveTiles, FreeTiles, UnitsInBlocks, AddUnits, Sorted;
    ExtendedSorted(a.list, a.size, base, b, n);
    ExtendedLive(a.list, a.size, a.live, a.home, base, b, n);
    ExtendedFree(a.list, a.size, a.home, base, b, n);
    ExtendedUnits(a.list, a.size, a.live, a.home, base, b, n);
  }

  /** morecore asks for at least 4096 units. */
  function Grab(nu: nat): (n: nat)
    ensures n >= nu && n >= 4096
  {
    if nu < 4096 then 4096 else nu
  }

  /** The units the allocator has: the old ones, and what sbrk granted. */
  ghost predicate Gained(old': map<nat, nat>, new': map<nat, nat>, grant: Option<nat>, n: nat)
  {
    forall x :: x in new' <==> x in old' || (grant.Some? && grant.value <= x < grant.value + n)
  }

  /** The units of blocks that stay live stay in them. */
  ghost predicate LiveKept(old': map<nat, nat>, new': map<nat, nat>, live: map<nat, nat>)
  {
    forall x :: x in old' && old'[x] in live ==> x in new' && new'[x] == old'[x]
  }

  /** Extending and then freeing the new block. */
  lemma ExtendThenFree(a: Arena, b: nat, n: nat, d: Arena, base: nat)
    requires Unknown(a.home, base, b, n) && b !in a.live && d.live == a.live && SameUnits(Extended(a, b, n), d)
    ensures Gained(a.home, d.home, Some(b), n) && LiveKept(a.home, d.home, a.live)
  {
    var home' := AddUnits(a.home, b, n);
    hide AddUnits;
    assert d.home.Keys == home'.Keys;
  }

  lemma TailNewIn(a: Arena, base: nat, q: nat, n: nat, b: nat)
    requires Good(a, base, {}) && 1 <= q < |a.list| && 1 <= n < a.size[a.list[q]]
    requires b == a.list[q] + (a.size[a.list[q]] - n)
    ensures a.list[q] in a.size && b !in a.live && b !in a.list && b > base
  {
    hide Tiled, Linked, CoalescedBut;
    TailNew(a.list, a.size, a.live, a.home, base, q, b);
  }

  lemma ReassignKeys(home: map<nat, nat>, lo: nat, hi: nat, b: nat)
    ensures Reassign(home, lo, hi, b).Keys == home.Keys
  {
  }

  lemma TakenTailSummary(a: Arena, base: nat, q: nat, n: nat, b: nat)
    requires Good(a, base, {}) && 1 <= q < |a.list| && 1 <= n < a.size[a.list[q]]
    requires b == a.list[q] + (a.size[a.list[q]] - n)
    ensures Good(TakenTail(a, q, n), base, {}) && b !in a.live && b > base
    ensures TakenTail(a, q, n).size == a.size[a.list[q] := a.size[a.list[q]] - n][b := n]
    ensures Reassign(a.home, b, b + n, b).Keys == a.home.Keys
  {
    hide Good, Reassign;
    TailNewIn(a, base, q, n, b);
    TakenTailOk(a, base, q, n, b);
    ReassignKeys(a.home, b, b + n, b);
  }

  /** No unit of a live block is in the block at position q of the list. */
  lemma TailKept(list: seq<nat>, size: map<nat, nat>, live: map<nat, nat>, home: map<nat, nat>, base: nat, q: nat,
                 n: nat)
    requires Sorted(list, size, base) && Tiled(list, size, live, home, base) && 1 <= q < |list| && n <= size[list[q]]
    ensures LiveKept(home, home, live)
    ensures var b := list[q] + (size[list[q]] - n); LiveKept(home, Reassign(home, b, b + n, b), live)
  {
    hide UnitsInBlocks;
    assert Tile(home, list[q], size[list[q]]);
    assert list[q] !in live;
  }

  lemma TakeFacts(a: Arena, base: nat, q: nat, n: nat)
    requires Good(a, base, {}) && 1 <= q < |a.list| && a.size[a.list[q]] >= n >= 1 && base > 0
    ensures a.list[q] in a.ptr && a.list[q] in a.size && a.list[q] > base && a.list[q - 1] >= base
    ensures LiveKept(a.home, a.home, a.live)
    ensures a.list[q - 1] in Delete(a.list, q) && a.list[q - 1] in a.list
    ensures var b := a.list[q] + (a.size[a.list[q]] - n); LiveKept(a.home, Reassign(a.home, b, b + n, b), a.live)
  {
    hide Tiled, CoalescedBut, LiveKept, Reassign, Delete, Linked;
    Follow(a.list, a.ptr, q);
    DeleteMembers(a.list, q, a.list[q - 1]);
    TailKept(a.list, a.size, a.live, a.home, base, q, n);
  }

  /** The int that sbrk receives when morecore asks for nu units: the product cut to 32 bits, two's complement. */
  function SbrkArgument(nu: nat): (r: int) {
    var low := nu * HEADER % 0x1_0000_0000;
    if low < 0x8000_0000 then low else low - 0x1_0000_0000
  }

  /** sbrk is asked for what morecore records exactly when the request is at most 2^31 - 32 bytes. */
  lemma SbrkIsAskedForTheUnits(nbytes: nat)
    requires nbytes < 0x1_0000_0000
    ensures SbrkArgument(Grab(Units(nbytes))) == Grab(Units(nbytes)) * HEADER <==> nbytes <= 0x8000_0000 - 2 * HEADER
    ensures nbytes <= 0x8000_0000 - 2 * HEADER <==> Units(nbytes) * HEADER < 0x8000_0000
    ensures SbrkArgument(Grab(Units(0xFFFF_FFFF))) == HEADER < Units(0xFFFF_FFFF) * HEADER
  {
  }

  // The search of malloc.

  function Prev(q: nat, n: nat): (r: nat)
    requires q < n
    ensures r < n && Next(r, n) == q
  {
    if q == 0 then n - 1 else q - 1
  }

  /** The blocks passed on the way from just after position s to position q are too small. */
  ghost predicate Scanning(a: Arena, n: nat, s: nat, q: nat)
  {
    && s < |a.list| && q < |a.list| && (forall k :: 0 <= k < |a.list| ==> a.list[k] in a.size)
    && forall x :: 0 <= x < |a.list| && Passed(s, q, x) ==> a.size[a.list[x]] < n
  }

  ghost predicate AllSmaller(a: Arena, n: nat) {
    forall k :: 0 <= k < |a.list| ==> a.list[k] in a.size && a.size[a.list[k]] < n
  }

  lemma ScanStart(a: Arena, base: nat, n: nat, s: nat)
    requires Good(a, base, {}) && s < |a.list|
    ensures Scanning(a, n, s, Next(s, |a.list|))
  {
  }

  lemma ScanStep(a: Arena, n: nat, s: nat, q: nat)
    requires Scanning(a, n, s, q) && q != s && a.size[a.list[q]] < n
    ensures Scanning(a, n, s, Next(q, |a.list|))
  {
  }

  /** Back at the start, every block has been looked at. */
  lemma ScanDone(a: Arena, n: nat, s: nat)
    requires Scanning(a, n, s, s) && a.size[a.list[s]] < n
    ensures AllSmaller(a, n)
  {
  }

  lemma PrevIs(q: nat, n: nat)
    requires 1 <= q < n
    ensures Prev(q, n) == q - 1
  {
  }

  lemma PrevNext(q: nat, n: nat)
    requires q < n
    ensures Next(q, n) < n && Prev(Next(q, n), n) == q
  {
  }

  lemma KeptAtFirst(home: map<nat, nat>, live: map<nat, nat>, n: nat)
    ensures Gained(home, home, None, n) && LiveKept(home, home, live)
  {
  }

  lemma KeptTrans(h0: map<nat, nat>, h1: map<nat, nat>, h2: map<nat, nat>, live: map<nat, nat>, grant: Option<nat>,
                  n: nat)
    requires Gained(h0, h1, grant, n) && LiveKept(h0, h1, live) && h2.Keys == h1.Keys && LiveKept(h1, h2, live)
    ensures Gained(h0, h2, grant, n) && LiveKept(h0, h2, live)
  {
  }

  lemma LiveSize(a: Arena, base: nat, b: nat)
    requires Good(a, base, {}) && b in a.live
    ensures b in a.size && a.size[b] == a.live[b] && b > base && b !in a.list
  {
    hide Linked, CoalescedBut, FreeTiles, UnitsInBlocks;
  }

  /** The first free list: base alone. */
  lemma FirstList(base: nat, ptr: map<nat, nat>, size: map<nat, nat>)
    ensures Good(Arena([base], ptr[base := base], size[base := 0], map[], map[]), base, {})
  {
  }

  /** What following ptr from position q reaches, and that only position 0 has size 0. */
  lemma ScanFacts(a: Arena, base: nat, q: nat, s: nat)
    requires Good(a, base, {}) && q < |a.list| && s < |a.list|
    ensures a.list[q] in a.ptr && a.list[q] in a.size && a.ptr[a.list[q]] == a.list[Next(q, |a.list|)]
    ensures a.size[a.list[q]] >= 1 ==> q >= 1
    ensures a.list[q] == a.list[s] ==> q == s
  {
    Follow(a.list, a.ptr, q);
  }

  class Heap {
    const base: nat
    var ptr: map<nat, nat>
    var size: map<nat, nat>
    var freep: nat                  // 0 before the first malloc
    ghost var list: seq<nat>        // the free list in address order, from base
    ghost var live: map<nat, nat>   // allocated blocks and their sizes
    ghost var home: map<nat, nat>   // for every unit obtained from sbrk, the block it is part of

    constructor (b: nat)
      requires b > 0
      ensures base == b && freep == 0 && live == map[] && home == map[] && Valid()
    {
      base, ptr, size, freep := b, map[], map[], 0;
      list, live, home := [], map[], map[];
    }

    ghost function State(): (a: Arena)
      reads this
    {
      Arena(list, ptr, size, live, home)
    }

    ghost predicate Started()
      reads this
    {
      Good(State(), base, {}) && freep in list
    }

    ghost predicate Valid()
      reads this
    {
      base > 0 && if freep == 0 then list == [] && live == map[] && home == map[] else Started()
    }

    /** The search loop of free: the list block after which bp belongs. */
    method FindPlace(bp: nat) returns (p: nat, ghost k: nat)
      requires Started() && bp in live
      ensures PlaceOf(list, bp, k) && p == list[k]
    {
      hide Tiled, Sorted, CoalescedBut, PlaceOf, Distance, Linked, Next;
      LiveSize(State(), base, bp);
      SortedBase(list, size, base);
      ghost var t := PlaceExists(list, bp, |list|);
      PlaceFrom(list, bp, t);
      p := freep;
      k :| k < |list| && list[k] == freep;
      StopsAtPlace(list, size, base, bp, t);
      Follow(list, ptr, k);
      StopsAtPlace(list, size, base, bp, k);
      while !(bp > p && bp < ptr[p])
        invariant k < |list| && list[k] == p && p in ptr && ptr[p] == list[Next(k, |list|)]
        invariant (bp > p && bp < ptr[p]) || (p >= ptr[p] && (bp > p || bp < ptr[p])) <==> PlaceOf(list, bp, k)
        decreases Distance(k, t, |list|)
      {
        if p >= ptr[p] && (bp > p || bp < ptr[p]) { break; }
        DistanceShrinks(k, t, |list|);
        p := ptr[p];
        k := Next(k, |list|);
        Follow(list, ptr, k);
        StopsAtPlace(list, size, base, bp, k);
      }
    }
  
    /** free: the block goes to its place on the list and joins the neighbours it touches. */
    method Free(ap: nat) returns (ghost at: nat)
      requires Started() && base > 0 && ap > 0 && ap - 1 in live
      modifies this
      ensures Started() && freep != 0
      ensures live == old(live) - {ap - 1} && SameUnits(old(State()), State())
      ensures Covers(State(), at, ap - 1, ap - 1 + old(live)[ap - 1])
    {
      hide Good, PlaceOf, UpperHeaders, LowerHeaders, SameUnits, Covers;
      var bp := ap - 1;
      var p;
      ghost var k;
      p, k := FindPlace(bp);
      ghost var a := State();
      LiveSize(a, base, bp);
      ghost var d;
      d, at := FreeResult(a, base, k, bp);

      SetUpper(p, bp);
      SetLower(p, bp);
      freep := p;
      list, home, live := d.list, d.home, d.live;
      assert State() == d;
    }
  
    /** join to upper neighbour */
    method SetUpper(p: nat, bp: nat)
      requires p in ptr && ptr[p] in ptr && ptr[p] in size && bp in size
      modifies this`ptr, this`size
      ensures (ptr, size) == UpperHeaders(old(ptr), old(size), p, bp)
      ensures bp in ptr && bp in size && (p in old(size) ==> p in size)
    {
      if bp + size[bp] == ptr[p] {
        size := size[bp := size[bp] + size[ptr[p]]];
        ptr := ptr[bp := ptr[ptr[p]]];
      } else {
        ptr := ptr[bp := ptr[p]];
      }
    }

    /** join to lower neighbour */
    method SetLower(p: nat, bp: nat)
      requires bp in ptr && bp in size && p in size
      modifies this`ptr, this`size
      ensures (ptr, size) == LowerHeaders(old(ptr), old(size), p, bp)
    {
      if p + size[p] == bp {
        size := size[p := size[p] + size[bp]];
        ptr := ptr[p := ptr[bp]];
      } else {
        ptr := ptr[p := bp];
      }
    }
  
    /** morecore: `grant` is what sbrk answers. The new block ends up inside list[at]. */
    method Morecore(nu: nat, grant: Option<nat>) returns (r: nat, ghost at: nat)
      requires Started() && base > 0 && nu >= 1
      requires grant.Some? ==> Unknown(home, base, grant.value, Grab(nu))
      modifies this
      ensures Started() && live == old(live)
      ensures grant.None? ==> r == 0 && State() == old(State()) && freep == old(freep)
      ensures grant.Some? ==> r == freep != 0 && at < |list| && list[at] in size && size[list[at]] >= nu
      ensures Gained(old(home), home, grant, Grab(nu)) && LiveKept(old(home), home, live)
    {
      hide Good, AddUnits;
      var n := nu;
      if n < 4096 { n := 4096; }
      if grant.None? { return 0, 0; }
      var hp := grant.value;
      ghost var a := State();
      ExtendedOk(a, base, hp, n);
      size := size[hp := n];
      live, home := live[hp := n], AddUnits(home, hp, n);
      assert live - {hp} == a.live;
      at := Free(hp + 1);
      ExtendThenFree(a, hp, n, State(), base);
      r := freep;
    }
  
    /** Hand out the block at position q of the list, which is big enough. */
    method Take(p: nat, prevp: nat, n: nat, ghost q: nat) returns (b: nat)
      requires Started() && base > 0 && n >= 1 && 1 <= q < |list| && list[q] == p && list[q - 1] == prevp
      requires p in size && size[p] >= n
      modifies this
      ensures Started() && freep == prevp && freep != 0
      ensures b !in old(live) && live == old(live)[b := n] && b + 1 > base
      ensures home.Keys == old(home).Keys && LiveKept(old(home), home, old(live))
    {
      hide Good, LiveKept, Reassign, Delete;
      ghost var a := State();
      TakeFacts(a, base, q, n);
      if size[p] == n {
        TakenWholeOk(a, base, q);
        ptr := ptr[prevp := ptr[p]];
        b := p;
        live, list := live[p := n], Delete(list, q);
        assert State() == TakenWhole(a, q);
      } else {
        b := p + (size[p] - n);
        TakenTailSummary(a, base, q, n, b);
        size := size[p := size[p] - n];
        size := size[p + size[p] := n];
        live, home := live[b := n], Reassign(home, b, b + n, b);
        assert State() == TakenTail(a, q, n);
      }
      freep := prevp;
    }
  
    /** The first call of malloc makes the list of base alone. */
    method FirstUse() returns (prevp: nat)
      requires Valid()
      modifies `ptr, `size, `freep, `list
      ensures Started() && prevp == freep != 0
      ensures old(freep) != 0 ==> State() == old(State()) && freep == old(freep)
    {
      hide Good;
      prevp := freep;
      if prevp == 0 {
        FirstList(base, ptr, size);
        ptr := ptr[base := base];
        freep := base;
        prevp := base;
        size := size[base := 0];
        list := [base];
        assert freep in list;
      }
    }

    /** malloc: `grant` is what sbrk would answer; `calls` counts the calls of morecore. */
    method Malloc(nbytes: nat, grant: Option<nat>) returns (r: nat, ghost calls: nat)
      requires Valid() && Units(nbytes) * HEADER < 0x8000_0000
      requires grant.Some? ==> Unknown(home, base, grant.value, Grab(Units(nbytes)))
      modifies this
      ensures Valid() && Started() && calls <= 1
      ensures Gained(old(home), home, if calls == 1 then grant else None, Grab(Units(nbytes)))
      ensures LiveKept(old(home), home, old(live))
      ensures r == 0 ==> calls == 1 && grant.None? && live == old(live)
                         && AllSmaller(State(), Units(nbytes))
      ensures r != 0 ==> r - 1 !in old(live) && live == old(live)[r - 1 := Units(nbytes)]
    {
      hide Good, LiveKept, Gained, Unknown, Passed, Next, Prev, Distance, AllSmaller, Scanning;
      var n := Units(nbytes);
      ghost var live0, home0 := live, home;
      var prevp := FirstUse();
      KeptAtFirst(home, live, Grab(n));
      calls := 0;
      ghost var s: nat :| s < |list| && list[s] == freep;
      ScanFacts(State(), base, s, s);
      ScanStart(State(), base, n, s);
      PrevNext(s, |list|);
      var p := ptr[prevp];
      ghost var q: nat := Next(s, |list|);
      ghost var big: nat := 0;
      while true
        invariant Started() && freep != 0 && live == live0 && calls <= 1
        invariant s < |list| && list[s] == freep && q < |list| && list[q] == p && list[Prev(q, |list|)] == prevp
        invariant Scanning(State(), n, s, q)
        invariant calls == 1 ==> grant.Some? && big < |list| && list[big] in size && size[list[big]] >= n
        invariant calls == 0 ==> home == home0
        invariant Gained(home0, home, if calls == 1 then grant else None, Grab(n)) && LiveKept(home0, home, live0)
        decreases 1 - calls, Distance(q, s, |list|)
      {
        ScanFacts(State(), base, q, s);
        if size[p] >= n {
          assert prevp == list[q - 1] by { PrevIs(q, |list|); }
          ghost var h := home;
          var b := Take(p, prevp, n, q);
          KeptTrans(home0, h, home, live0, if calls == 1 then grant else None, Grab(n));
          return b + 1, calls;
        }
        if p == freep {
          assert q == s;
          ScanDone(State(), n, s);
          assert calls == 0;
          p, big := Morecore(n, grant);
          calls := 1;
          if p == 0 { return 0, calls; }
          s :| s < |list| && list[s] == freep;
          q := s;
          ScanStart(State(), base, n, s);
        } else {
          ScanStep(State(), n, s, q);
          DistanceShrinks(q, s, |list|);
        }
        ScanFacts(State(), base, q, s);
        PrevNext(q, |list|);
        prevp := p;
        p := ptr[p];
        q := Next(q, |list|);
      }
    }
  }
}
