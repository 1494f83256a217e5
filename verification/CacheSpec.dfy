/** What the operations of kernel/bio.c do to the NBUF buffers and the list through them. */
module CacheSpec {
  import opened Options
  import opened Blocks

  const NBUF: nat := 30

  datatype Key = Key(dev: nat, blockno: nat)

  datatype Line = Line(key: Key, valid: bool, data: Block, locked: bool, refcnt: int)

  /** The buffers, the list through them by buffer number, most recently released first, and the disk. */
  datatype Cache = Cache(lines: seq<Line>, ring: seq<nat>, disk: map<Key, Block>)

  function LineAt(c: Cache, i: nat): (l: Line) {
    if i < |c.lines| then c.lines[i] else Line(Key(0, 0), false, ZeroBlock(), false, 0)
  }

  /** First scan of bget: the buffer of a block, from the front of the list. */
  function FirstOf(c: Cache, ring: seq<nat>, key: Key): (i: Option<nat>) {
    if ring == [] then None
    else if LineAt(c, ring[0]).key == key then Some(ring[0])
    else FirstOf(c, ring[1..], key)
  }

  /** Second scan of bget: an unreferenced buffer, from the back of the list. */
  function LastUnused(c: Cache, ring: seq<nat>): (i: Option<nat>) {
    if ring == [] then None
    else if LineAt(c, ring[|ring| - 1]).refcnt == 0 then Some(ring[|ring| - 1])
    else LastUnused(c, ring[..|ring| - 1])
  }

  /** The buffer bget returns, or None for its panic. */
  function Choose(c: Cache, key: Key): (i: Option<nat>) {
    var i := FirstOf(c, c.ring, key);
    if i.Some? then i else LastUnused(c, c.ring)
  }

  function SetLine(c: Cache, i: nat, l: Line): (d: Cache) {
    if i < |c.lines| then c.(lines := c.lines[i := l]) else c
  }

  /** bget's critical section on the buffer it chose. */
  function Bget(c: Cache, key: Key, i: nat): (d: Cache) {
    var l := LineAt(c, i);
    if FirstOf(c, c.ring, key).Some? then SetLine(c, i, l.(refcnt := l.refcnt + 1))
    else SetLine(c, i, Line(key, false, l.data, l.locked, 1))
  }

  function Filled(c: Cache, i: nat): (l: Line) {
    var l := LineAt(c, i);
    if l.valid || l.key !in c.disk then l else l.(valid := true, data := c.disk[l.key])
  }

  function Bwrite(c: Cache, i: nat): (d: Cache) { c.(disk := c.disk[LineAt(c, i).key := LineAt(c, i).data]) }

  /** The list with buffer i moved to its front. */
  function ToFront(ring: seq<nat>, i: nat): (r: seq<nat>) { [i] + Dropped(ring, i) }

  function Dropped(ring: seq<nat>, i: nat): (r: seq<nat>) {
    if ring == [] then [] else if ring[0] == i then ring[1..] else [ring[0]] + Dropped(ring[1..], i)
  }

  /** releasesleep of a buffer, the first half of brelse. */
  function Unlock(c: Cache, i: nat): (d: Cache) { SetLine(c, i, LineAt(c, i).(locked := false)) }

  /** The critical section of brelse. */
  function Unref(c: Cache, i: nat): (d: Cache) {
    var l := LineAt(c, i);
    var c' := SetLine(c, i, l.(refcnt := l.refcnt - 1));
    if l.refcnt == 1 then c'.(ring := ToFront(c.ring, i)) else c'
  }

  function Brelse(c: Cache, i: nat): (d: Cache) { Unref(Unlock(c, i), i) }

  lemma {:induction false} FirstIs(c: Cache, ring: seq<nat>, key: Key)
    ensures var r := FirstOf(c, ring, key);
            && (r.Some? ==> r.value in ring && LineAt(c, r.value).key == key)
            && (r == None ==> forall i :: i in ring ==> LineAt(c, i).key != key)
  {
    if ring != [] { FirstIs(c, ring[1..], key); }
  }

  lemma {:induction false} LastIs(c: Cache, ring: seq<nat>)
    ensures var r := LastUnused(c, ring);
            && (r.Some? ==> r.value in ring && LineAt(c, r.value).refcnt == 0)
            && (r == None ==> forall i :: i in ring ==> LineAt(c, i).refcnt != 0)
  {
    if ring != [] { LastIs(c, ring[..|ring| - 1]); }
  }

  lemma {:induction false} DroppedIs(ring: seq<nat>, i: nat, j: nat)
    ensures j in ring ==> j == i || j in Dropped(ring, i)
    ensures j in Dropped(ring, i) ==> j in ring
  {
    if ring != [] && ring[0] != i { DroppedIs(ring[1..], i, j); }
  }

  lemma {:induction false} DroppedAt(ring: seq<nat>, k: nat)
    requires k < |ring| && forall j :: 0 <= j < k ==> ring[j] != ring[k]
    ensures Dropped(ring, ring[k]) == ring[..k] + ring[k + 1..]
  {
    if k > 0 {
      DroppedAt(ring[1..], k - 1);
      assert ring[1..][..k - 1] == ring[1..k] && ring[1..][k..] == ring[k + 1..];
      assert [ring[0]] + ring[1..k] == ring[..k];
    }
  }

  /** Zeroed static buffers, linked by binit with the last one in front. */
  function PowerOn(contents: map<Key, Block>): (c: Cache) {
    Cache(seq(NBUF, _ => Line(Key(0, 0), false, ZeroBlock(), false, 0)), seq(NBUF, i => NBUF - 1 - i), contents)
  }
}
