/** The buffer cache of kernel/bio.c: NBUF buffers on a circular prev/next list that is kept in
    least-recently-released order, in front of a block device. Every operation does to the pointers
    and fields what CacheSpec says of the buffers by number. */
module BufferCache {
  import opened Options
  import opened Blocks
  import opened CacheSpec

  class Buf {
    var valid: bool
    var key: Key          // dev and blockno
    var locked: bool      // the sleep-lock
    var refcnt: int
    var prev: Buf?
    var next: Buf?
    var data: Block
    ghost var stamp: int  // when brelse last brought refcnt to zero

    ghost predicate Unused()
      reads this
    {
      !valid && key == Key(0, 0) && !locked && refcnt == 0 && stamp == 0 && data == ZeroBlock()
    }

    constructor ()
      ensures Unused()
    {
      valid, key, locked, refcnt, stamp := false, Key(0, 0), false, 0, 0;
      prev, next, data := null, null, ZeroBlock();
    }
  }

  ghost function Elements(s: seq<Buf>): (e: set<Buf>)
  {
    if s == [] then {} else {s[0]} + Elements(s[1..])
  }

  lemma {:induction false} ElementsOf(s: seq<Buf>)
    ensures forall b :: b in Elements(s) <==> b in s
  {
    if s != [] {
      ElementsOf(s[1..]);
      assert s == [s[0]] + s[1..];
    }
  }

  lemma {:induction false} ElementsWithin(s: seq<Buf>, t: seq<Buf>)
    requires forall i :: 0 <= i < |s| ==> s[i] in t
    ensures Elements(s) <= Elements(t)
  {
    if s != [] {
      ElementsWithin(s[1..], t);
      ElementsOf(t);
      assert s[0] in t;
    }
  }

  /** A doubly linked circular list through a head. */
  ghost function Node(head: Buf, s: seq<Buf>, i: int): (b: Buf)
  {
    if 1 <= i <= |s| then s[i - 1] else head
  }

  ghost predicate Linked(head: Buf, s: seq<Buf>, nodes: set<Buf>)
    reads nodes`next, nodes`prev
  {
    && head in nodes
    && (forall i :: 0 <= i < |s| ==> s[i] in nodes && s[i] != head)
    && (forall i :: 0 <= i <= |s| ==>
          Node(head, s, i).next == Node(head, s, i + 1) && Node(head, s, i + 1).prev == Node(head, s, i))
  }

  /** No buffer is on a linked list twice. */
  lemma {:induction false} LinkedDistinct(head: Buf, s: seq<Buf>, nodes: set<Buf>, i: nat, j: nat)
    requires Linked(head, s, nodes) && i < j < |s|
    ensures s[i] != s[j]
    decreases |s| - j
  {
    if s[i] == s[j] {
      assert Node(head, s, i + 1).next == Node(head, s, i + 2);
      assert Node(head, s, j + 1).next == Node(head, s, j + 2);
      if j + 1 < |s| { LinkedDistinct(head, s, nodes, i + 1, j + 1); }
    }
  }

  /** Most recent release first. */
  ghost predicate Ordered(s: seq<Buf>, nodes: set<Buf>, clock: int)
    requires forall i :: 0 <= i < |s| ==> s[i] in nodes
    reads nodes`stamp
  {
    && (forall i, j :: 0 <= i < j < |s| ==> s[i].stamp >= s[j].stamp)
    && (forall i :: 0 <= i < |s| ==> s[i].stamp <= clock)
  }

  class Bcache {
    const head: Buf
    const bufs: seq<Buf>
    ghost const pool: set<Buf>        // the buffers
    ghost const nodes: set<Buf>       // the buffers and the list head
    var disk: map<Key, Block>
    ghost var ring: seq<Buf>          // head.next, head.next.next, ...
    ghost var clock: int
    ghost var lines: seq<Line>        // the buffers by number
    ghost var num: seq<nat>           // ring, by number

    ghost function M(): (m: Cache)
      reads this`lines, this`num, this`disk
    {
      Cache(lines, num, disk)
    }

    ghost predicate Storage()
    {
      nodes == {head} + pool
    }

    /** The static array: NBUF buffers, with a list head that is not one of them. */
    ghost predicate BufsOk()
    {
      && |bufs| == NBUF && pool == Elements(bufs) && (forall i :: 0 <= i < |bufs| ==> bufs[i] in pool)
      && forall i, j :: 0 <= i < j < |bufs| ==> bufs[i] != bufs[j]
    }

    /** The ring is a permutation of all buffers, in order of release. */
    ghost predicate RingOk()
      reads this`ring, this`clock, nodes`next, nodes`prev, nodes`stamp
    {
      && BufsOk()
      && |ring| == NBUF
      && Elements(ring) == pool
      && Linked(head, ring, nodes)
      && Ordered(ring, nodes, clock)
    }

    ghost function LineOf(b: Buf): (l: Line)
      reads b`key, b`valid, b`data, b`locked, b`refcnt
    {
      Line(b.key, b.valid, b.data, b.locked, b.refcnt)
    }

    ghost predicate LinesOk()
      reads this`lines, nodes`key, nodes`valid, nodes`data, nodes`locked, nodes`refcnt
      requires Storage() && BufsOk()
    {
      |lines| == NBUF && forall i :: 0 <= i < NBUF ==> lines[i] == LineOf(bufs[i])
    }

    ghost predicate NumbersOk()
      reads this`num, this`ring
    {
      |num| == |ring| && forall j :: 0 <= j < |ring| ==> num[j] < |bufs| && bufs[num[j]] == ring[j]
    }

    ghost predicate Valid()
      reads this, nodes
    {
      Storage() && RingOk() && LinesOk() && NumbersOk()
    }

    static method Allocate() returns (h: Buf, bs: seq<Buf>)
      ensures fresh(h) && fresh(bs) && h !in bs && |bs| == NBUF
      ensures forall i, j :: 0 <= i < j < |bs| ==> bs[i] != bs[j]
      ensures forall i :: 0 <= i < |bs| ==> bs[i].Unused()
    {
      h := new Buf();
      bs := [];
      while |bs| < NBUF
        invariant |bs| <= NBUF && fresh(bs) && h !in bs
        invariant forall i, j :: 0 <= i < j < |bs| ==> bs[i] != bs[j]
        invariant forall i :: 0 <= i < |bs| ==> bs[i].Unused()
      {
        var b := new Buf();
        bs := bs + [b];
      }
    }

    /** The machine at power-on: static storage is zero and the list is linked by binit. */
    constructor (contents: map<Key, Block>)
      ensures Valid() && fresh(nodes) && M() == PowerOn(contents)
    {
      hide Linked, Ordered, Elements, RingOk;
      var h, bs := Allocate();
      ElementsOf(bs);
      head, bufs, disk, clock, ring := h, bs, contents, 0, [];
      pool := Elements(bs);
      nodes := {h} + Elements(bs);
      lines, num := PowerOn(contents).lines, PowerOn(contents).ring;
      new;
      Binit();
    }

    /** binit: link every buffer in at the front of the list. */
    method Binit()
      requires Storage() && BufsOk() && head !in bufs
      requires forall b :: b in pool ==> b.stamp == 0
      requires clock == 0
      modifies nodes`prev, nodes`next, this`ring
      ensures RingOk() && |ring| == NBUF && forall j :: 0 <= j < NBUF ==> ring[j] == bufs[NBUF - 1 - j]
    {
      hide Elements;
      ElementsOf(bufs);
      head.prev := head;
      head.next := head;
      ring := [];
      var i := 0;
      while i < NBUF
        invariant 0 <= i <= NBUF
        invariant |ring| == i && Linked(head, ring, nodes)
        invariant forall j :: 0 <= j < i ==> ring[j] == bufs[i - 1 - j]
      {
        LinkFront(bufs[i]);
        i := i + 1;
      }
      ElementsWithin(ring, bufs);
      forall j | 0 <= j < NBUF ensures bufs[j] in ring { assert ring[NBUF - 1 - j] == bufs[j]; }
      ElementsWithin(bufs, ring);
    }

    /** The four assignments that insert b right after the head. */
    method LinkFront(b: Buf)
      requires b in nodes && b !in ring && b != head && Linked(head, ring, nodes)
      modifies nodes`prev, nodes`next, this`ring
      ensures ring == [b] + old(ring) && Linked(head, ring, nodes)
    {
      ghost var s := ring;
      assert Node(head, s, 0).next == Node(head, s, 1);
      forall j | 0 < j < |s| ensures s[0] != s[j] { LinkedDistinct(head, s, nodes, 0, j); }
      b.next := head.next;
      b.prev := head;
      head.next.prev := b;
      head.next := b;
      ring := [b] + s;
      forall i | 0 <= i <= |ring|
        ensures Node(head, ring, i).next == Node(head, ring, i + 1)
                && Node(head, ring, i + 1).prev == Node(head, ring, i)
      {
        if i >= 1 {
          assert old(Node(head, s, i - 1).next == Node(head, s, i) && Node(head, s, i).prev == Node(head, s, i - 1));
          assert Node(head, ring, i + 1) == Node(head, s, i);
        }
      }
    }

    /** The two assignments that take b out of the list. */
    method Unlink(b: Buf, ghost k: nat)
      requires k < |ring| && ring[k] == b && Linked(head, ring, nodes)
      modifies nodes`prev, nodes`next, this`ring
      ensures ring == old(ring)[..k] + old(ring)[k + 1..] && Linked(head, ring, nodes)
      ensures b !in ring && b in nodes && b != head
    {
      ghost var s := ring;
      assert Node(head, s, k + 1) == b;
      assert Node(head, s, k).next == b && b.prev == Node(head, s, k);
      assert b.next == Node(head, s, k + 2) && Node(head, s, k + 2).prev == b;
      forall i, j | 0 <= i < j < |s| ensures s[i] != s[j] { LinkedDistinct(head, s, nodes, i, j); }
      b.next.prev := b.prev;
      b.prev.next := b.next;
      ring := s[..k] + s[k + 1..];
      forall i | 0 <= i <= |ring|
        ensures Node(head, ring, i).next == Node(head, ring, i + 1)
                && Node(head, ring, i + 1).prev == Node(head, ring, i)
      {
        if i < k {
          assert old(Node(head, s, i).next == Node(head, s, i + 1) && Node(head, s, i + 1).prev == Node(head, s, i));
        } else if i > k {
          assert old(Node(head, s, i + 1).next == Node(head, s, i + 2)
                     && Node(head, s, i + 2).prev == Node(head, s, i + 1));
        }
      }
    }

    /** First scan of bget: forward from the most recently released. */
    method FindCached(key: Key) returns (b: Buf?, ghost n: nat)
      requires Valid()
      ensures FirstOf(M(), num, key) == if b == null then None else Some(n)
      ensures b != null ==> n < NBUF && bufs[n] == b && b in nodes
    {
      hide Ordered, Elements, LinesOk;
      assert Node(head, ring, 0).next == Node(head, ring, 1);
      var p := head.next;
      ghost var i := 0;
      assert num[0..] == num;
      while p != head
        invariant 0 <= i <= |ring| && p == Node(head, ring, i + 1)
        invariant FirstOf(M(), num, key) == FirstOf(M(), num[i..], key)
        decreases |ring| - i
      {
        assert p == ring[i] && p.next == Node(head, ring, i + 2);
        FirstStep(i, key);
        if p.key == key { return p, num[i]; }
        p := p.next;
        i := i + 1;
      }
      return null, 0;
    }

    lemma FirstStep(i: nat, key: Key)
      requires Valid() && i < |ring|
      ensures FirstOf(M(), num[i..], key) == if ring[i].key == key then Some(num[i])
          else FirstOf(M(), num[i + 1..], key)
    {
      hide Linked, Ordered;
      assert num[i..][1..] == num[i + 1..];
      assert LineAt(M(), num[i]) == LineOf(bufs[num[i]]);
    }

    /** Second scan of bget: backward from the least recently released. */
    method FindUnused() returns (b: Buf?, ghost n: nat)
      requires Valid()
      ensures LastUnused(M(), num) == if b == null then None else Some(n)
      ensures b != null ==> n < NBUF && bufs[n] == b && b.refcnt == 0 && b in nodes
      ensures b != null ==> forall c :: c in pool && c.refcnt == 0 ==> c.stamp >= b.stamp
    {
      hide Ordered, Elements, LinesOk;
      assert Node(head, ring, |ring| + 1).prev == Node(head, ring, |ring|);
      var p := head.prev;
      ghost var i := |ring|;
      assert num[..i] == num;
      while p != head
        invariant 0 <= i <= |ring| && p == Node(head, ring, i)
        invariant LastUnused(M(), num) == LastUnused(M(), num[..i])
        invariant forall j :: i <= j < |ring| ==> ring[j].refcnt != 0
        decreases i
      {
        assert p == ring[i - 1] && p.prev == Node(head, ring, i - 1);
        LastStep(i);
        if p.refcnt == 0 {
          Oldest(i - 1);
          return p, num[i - 1];
        }
        p := p.prev;
        i := i - 1;
      }
      return null, 0;
    }

    /** From the back, the first unreferenced buffer is the one released longest ago. */
    lemma Oldest(k: nat)
      requires Valid() && k < |ring| && forall j :: k < j < |ring| ==> ring[j].refcnt != 0
      ensures forall c :: c in pool && c.refcnt == 0 ==> c.stamp >= ring[k].stamp
    {
      hide Linked, LinesOk, NumbersOk;
      ElementsOf(ring);
      forall c | c in pool && c.refcnt == 0 ensures c.stamp >= ring[k].stamp {
        var j :| 0 <= j < |ring| && ring[j] == c;
        if j < k { assert ring[j].stamp >= ring[k].stamp; }
      }
    }

    lemma LastStep(i: nat)
      requires Valid() && 0 < i <= |ring|
      ensures LastUnused(M(), num[..i]) == if ring[i - 1].refcnt == 0 then Some(num[i - 1])
          else LastUnused(M(), num[..i - 1])
    {
      hide Linked, Ordered;
      assert num[..i][..i - 1] == num[..i - 1];
      assert LineAt(M(), num[i - 1]) == LineOf(bufs[num[i - 1]]);
    }

    /** Give an unreferenced buffer to a block that has none. */
    method Recycle(b: Buf, key: Key, ghost n: nat)
      requires Valid() && n < NBUF && bufs[n] == b
      modifies b`key, b`valid, b`refcnt, this`lines
      ensures Valid() && M() == SetLine(old(M()), n, LineAt(old(M()), n).(key := key, valid := false, refcnt := 1))
    {
      hide Linked, Ordered, Elements, NumbersOk;
      b.key := key;
      b.valid := false;
      b.refcnt := 1;
      lines := lines[n := LineOf(b)];
    }

    /** The critical section of bget: find the block's buffer, or recycle the one whose last
        release to zero is furthest back. Null stands for the "no buffers" panic. */
    method Bget(key: Key) returns (b: Buf?, ghost n: nat)
      requires Valid()
      modifies nodes`key, nodes`valid, nodes`refcnt, this`lines
      ensures Valid() && Choose(old(M()), key) == if b == null then None else Some(n)
      ensures b == null ==> M() == old(M())
      ensures b != null ==> n < NBUF && bufs[n] == b && M() == CacheSpec.Bget(old(M()), key, n)
      ensures FirstOf(old(M()), old(num), key) == None && b != null ==>
                forall c :: c in pool && old(c.refcnt) == 0 ==> c.stamp >= b.stamp
    {
      hide RingOk, LinesOk, NumbersOk, LastUnused, FirstOf;
      b, n := FindCached(key);
      if b != null {
        Bpin(b, n);
      } else {
        b, n := FindUnused();
        if b != null { Recycle(b, key, n); }
      }
    }

    /** acquiresleep on a buffer already referenced; enabled once the lock is free. */
    method Lock(b: Buf, ghost n: nat)
      requires Valid() && n < NBUF && bufs[n] == b
      modifies b`locked, this`lines
      ensures Valid() && M() == SetLine(old(M()), n, LineAt(old(M()), n).(locked := true))
    {
      hide Linked, Ordered, Elements, NumbersOk;
      b.locked := true;
      lines := lines[n := LineOf(b)];
    }

    /** The rest of bread: fill an invalid buffer from the disk. */
    method Fill(b: Buf, ghost n: nat)
      requires Valid() && n < NBUF && bufs[n] == b && b.key in disk
      modifies b`valid, b`data, this`lines
      ensures Valid() && M() == SetLine(old(M()), n, Filled(old(M()), n)) && b.data == Filled(old(M()), n).data
    {
      hide Linked, Ordered, Elements, NumbersOk;
      if !b.valid {
        b.data := disk[b.key];
        b.valid := true;
      }
      lines := lines[n := LineOf(b)];
    }

    /** A holder changes the bytes of its locked buffer. */
    method SetData(b: Buf, d: Block, ghost n: nat)
      requires Valid() && n < NBUF && bufs[n] == b
      modifies b`data, this`lines
      ensures Valid() && M() == SetLine(old(M()), n, LineAt(old(M()), n).(data := d))
    {
      hide Linked, Ordered, Elements, NumbersOk;
      b.data := d;
      lines := lines[n := LineOf(b)];
    }

    /** bwrite: the device takes the buffer's bytes. */
    method Bwrite(b: Buf, ghost n: nat)
      requires Valid() && n < NBUF && bufs[n] == b
      modifies this`disk
      ensures Valid() && M() == CacheSpec.Bwrite(old(M()), n)
    {
      hide Linked, Ordered, Elements, NumbersOk;
      disk := disk[b.key := b.data];
    }

    /** The list surgery of brelse: the buffer becomes the most recently released. */
    method MoveToFront(b: Buf) returns (ghost k: nat)
      requires Storage() && RingOk() && b in pool
      modifies nodes`prev, nodes`next, this`ring, this`clock, b`stamp
      ensures RingOk() && ring[0] == b && b.stamp == clock > old(clock)
      ensures k < |old(ring)| && old(ring)[k] == b && ring == [b] + (old(ring)[..k] + old(ring)[k + 1..])
    {
      hide Linked, Elements, Ordered;
      ghost var r := ring;
      ElementsOf(r);
      k := Relink(b);
      Restamp(b, r, k);
    }

    /** The ghost clock ticks: the buffer in front is the one released last. */
    method Restamp(b: Buf, ghost r: seq<Buf>, ghost k: nat)
      requires k < |r| && r[k] == b && ring == [b] + (r[..k] + r[k + 1..]) && b !in ring[1..] && b in nodes
      requires (forall i :: 0 <= i < |r| ==> r[i] in nodes) && Ordered(r, nodes, clock)
      modifies this`clock, b`stamp
      ensures (forall i :: 0 <= i < |ring| ==> ring[i] in nodes) && Ordered(ring, nodes, clock)
      ensures b.stamp == clock > old(clock)
    {
      ghost var c := clock;
      forall i | 0 < i < |ring| ensures ring[i] == r[Before(k, i)] && ring[i] != b && ring[i].stamp <= c {
        assert ring[1..][i - 1] == ring[i];
      }
      forall i, j | 0 < i < j < |ring| ensures ring[i].stamp >= ring[j].stamp {
        assert ring[i] == r[Before(k, i)] && ring[j] == r[Before(k, j)];
      }
      clock := clock + 1;
      b.stamp := clock;
    }

    /** Where the buffer now at place i was before the one at place k moved to the front. */
    ghost function Before(k: nat, i: nat): (j: nat)
      requires i > 0
    {
      if i <= k then i - 1 else i
    }

    method Relink(b: Buf) returns (ghost k: nat)
      requires |ring| == NBUF && Elements(ring) == pool && Linked(head, ring, nodes) && b in pool
      modifies nodes`prev, nodes`next, this`ring
      ensures |ring| == NBUF && Elements(ring) == pool && Linked(head, ring, nodes)
      ensures k < NBUF && old(ring)[k] == b && ring == [b] + (old(ring)[..k] + old(ring)[k + 1..])
      ensures b !in ring[1..]
    {
      hide Linked, Elements;
      ElementsOf(ring);
      ghost var r := ring;
      k :| k < |ring| && ring[k] == b;
      Unlink(b, k);
      LinkFront(b);
      Rotated(r, k, ring);
    }

    /** Moving one buffer to the front keeps the buffers on the list. */
    lemma Rotated(r: seq<Buf>, k: nat, s: seq<Buf>)
      requires k < |r| && s == [r[k]] + (r[..k] + r[k + 1..])
      ensures Elements(s) == Elements(r)
    {
      hide Elements;
      forall i | 0 <= i < |r| ensures r[i] in s {
        if i < k { assert s[i + 1] == r[i]; } else if i == k { assert s[0] == r[i]; } else { assert s[i] == r[i]; }
      }
      forall i | 0 <= i < |s| ensures s[i] in r {
        assert s[i] == r[if i == 0 then k else if i <= k then i - 1 else i];
      }
      ElementsWithin(r, s);
      ElementsWithin(s, r);
    }

    /** The list by numbers after the surgery on it by pointers. */
    lemma Renumbered(r: seq<Buf>, num: seq<nat>, k: nat, n: nat)
      requires |num| == |r| && k < |r| && n < |bufs| && bufs[n] == r[k]
      requires forall j :: 0 <= j < |r| ==> num[j] < |bufs| && bufs[num[j]] == r[j]
      requires forall i, j :: 0 <= i < j < |bufs| ==> bufs[i] != bufs[j]
      requires forall i, j :: 0 <= i < j < |r| ==> r[i] != r[j]
      ensures ToFront(num, n) == [n] + (num[..k] + num[k + 1..]) && num[k] == n
    {
      assert forall j :: 0 <= j < k ==> num[j] != n;
      DroppedAt(num, k);
    }

    /** releasesleep. */
    method Unlock(b: Buf, ghost n: nat)
      requires Valid() && n < NBUF && bufs[n] == b
      modifies b`locked, this`lines
      ensures Valid() && M() == CacheSpec.Unlock(old(M()), n)
    {
      hide Linked, Ordered, Elements, NumbersOk;
      b.locked := false;
      lines := lines[n := LineOf(b)];
    }

    /** The critical section of brelse: one reference less, and to the front with the last one. */
    method Unref(b: Buf, ghost n: nat)
      requires Valid() && n < NBUF && bufs[n] == b
      modifies b`refcnt, b`stamp, nodes`prev, nodes`next, this`ring, this`clock, this`lines, this`num
      ensures Valid() && M() == CacheSpec.Unref(old(M()), n) && b.refcnt == old(b.refcnt) - 1
      ensures b.refcnt == 0 ==> ring[0] == b && b.stamp == clock > old(clock)
      ensures b.refcnt != 0 ==> ring == old(ring) && b.stamp == old(b.stamp)
    {
      hide RingOk, NumbersOk, BufsOk, ToFront;
      SeenLine(b, n);
      hide LinesOk;
      Bunpin(b, n);
      if b.refcnt == 0 { Front(b, n); }
    }

    lemma SeenLine(b: Buf, n: nat)
      requires Valid() && n < NBUF && bufs[n] == b
      ensures LineAt(M(), n) == LineOf(b)
    {
    }

    /** brelse. */
    method Brelse(b: Buf, ghost n: nat)
      requires Valid() && n < NBUF && bufs[n] == b
      modifies b`locked, b`refcnt, b`stamp, nodes`prev, nodes`next, this`ring, this`clock, this`lines, this`num
      ensures Valid() && M() == CacheSpec.Brelse(old(M()), n) && b.refcnt == old(b.refcnt) - 1
      ensures b.refcnt == 0 ==> ring[0] == b && b.stamp == clock > old(clock)
      ensures b.refcnt != 0 ==> ring == old(ring) && b.stamp == old(b.stamp)
    {
      hide RingOk, LinesOk, NumbersOk, BufsOk, ToFront;
      Unlock(b, n);
      Unref(b, n);
    }

    method Front(b: Buf, ghost n: nat)
      requires Valid() && n < NBUF && bufs[n] == b
      modifies b`stamp, nodes`prev, nodes`next, this`ring, this`clock, this`num
      ensures Valid() && M() == old(M()).(ring := ToFront(old(num), n))
      ensures ring[0] == b && b.stamp == clock > old(clock)
    {
      hide LinesOk, Ordered, Elements, ToFront;
      ghost var r := ring;
      forall i, j | 0 <= i < j < |r| ensures r[i] != r[j] { LinkedDistinct(head, r, nodes, i, j); }
      ghost var k := MoveToFront(b);
      Renumbered(r, num, k, n);
      num := ToFront(num, n);
    }

    method Bpin(b: Buf, ghost n: nat)
      requires Valid() && n < NBUF && bufs[n] == b
      modifies b`refcnt, this`lines
      ensures Valid() && M() == SetLine(old(M()), n, LineAt(old(M()), n).(refcnt := LineAt(old(M()), n).refcnt + 1))
    {
      hide Linked, Ordered, Elements, NumbersOk;
      b.refcnt := b.refcnt + 1;
      lines := lines[n := LineOf(b)];
    }

    method Bunpin(b: Buf, ghost n: nat)
      requires Valid() && n < NBUF && bufs[n] == b
      modifies b`refcnt, this`lines
      ensures Valid() && M() == SetLine(old(M()), n, LineAt(old(M()), n).(refcnt := LineAt(old(M()), n).refcnt - 1))
    {
      hide Linked, Ordered, Elements, NumbersOk;
      b.refcnt := b.refcnt - 1;
      lines := lines[n := LineOf(b)];
    }
  }
}
