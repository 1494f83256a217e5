/** The request queue of kernel/virtio_disk.c against a device that takes and completes requests in
    its own time and order (sections 2.6 and 5.2 of the Virtio 1.1 specification). Every method is
    one stretch of driver code under vdisk_lock, or one step of the device; calls in any order are
    the interleavings. The blocks moved are not part of the model. */
module Virtio {
  import opened Options
  import opened Seqs
  import opened VirtioSpec

  const NUM: nat := 8
  const WRAP: nat := 0x1_0000 // ring indices are 16 bits wide and never reduced modulo NUM

  datatype Desc = Desc(next: nat, hasNext: bool, deviceWrites: bool)

  const CLEAR := Desc(0, false, false)

  /** A request: its number, its buffer, and the second and third descriptor of its chain. */
  datatype Req = Req(id: nat, b: nat, d1: nat, d2: nat, phase: Phase)

  predicate InChain(h: nat, r: Req, i: nat) { i == h || i == r.d1 || i == r.d2 }

  /** Slot k past a 16-bit ring index. */
  function SlotAt(idx: nat, k: nat): (i: nat)
    ensures i < NUM
  {
    (idx + k) % WRAP % NUM
  }

  function Bump(idx: nat): (i: nat) { (idx + 1) % WRAP }

  /** The remainder modulo NUM is the one number below NUM that leaves a multiple. */
  lemma ModIs(x: int, q: int, t: int)
    requires x == 8 * q + t && 0 <= t < 8
    ensures x % NUM == t
  {
    var r, d := x % NUM, x / NUM - q;
    assert x == 8 * (x / NUM) + r;
    assert 8 * d == t - r;
  }

  lemma ModMod(x: nat)
    ensures x % WRAP % NUM == x % NUM
  {
    var a, r := x / WRAP, x % WRAP;
    assert x == 65536 * a + r;
    var b, t := r / NUM, r % NUM;
    assert r == 8 * b + t;
    ModIs(x, 8192 * a + b, t);
  }

  /** Fewer than NUM slots apart are different slots, also across the wrap. */
  lemma SlotsDiffer(idx: nat, j: nat, k: nat)
    requires j < k < j + NUM
    ensures SlotAt(idx, j) != SlotAt(idx, k)
  {
    ModMod(idx + j);
    ModMod(idx + k);
    var a, b := (idx + j) / NUM, (idx + k) / NUM;
    assert idx + j == 8 * a + (idx + j) % NUM;
    assert idx + k == 8 * b + (idx + k) % NUM;
  }

  lemma SlotBump(idx: nat, k: nat)
    ensures SlotAt(Bump(idx), k) == SlotAt(idx, k + 1)
  {
    var i := Bump(idx);
    var a := (idx + 1) / WRAP;
    assert idx + 1 == 65536 * a + i;
    ModMod(i + k);
    ModMod(idx + (k + 1));
    var q, t := (i + k) / NUM, (i + k) % NUM;
    assert i + k == 8 * q + t;
    ModIs(idx + (k + 1), 8192 * a + q, t);
  }

  /** Distinct numbers below n are at most n. */
  lemma {:induction false} Pigeonhole(s: seq<nat>, n: nat)
    requires Distinct(s) && forall i :: 0 <= i < |s| ==> s[i] < n
    ensures |s| <= n
    decreases n
  {
    if s != [] {
      assert s[0] < n;
      if n - 1 in s {
        var i :| 0 <= i < |s| && s[i] == n - 1;
        Pigeonhole(s[..i] + s[i + 1..], n - 1);
      } else {
        Pigeonhole(s, n - 1);
      }
    }
  }

  /** Distinct numbers below n that miss one of them are fewer than n. */
  lemma PigeonholeMissing(s: seq<nat>, n: nat, x: nat)
    requires Distinct(s) && (forall i :: 0 <= i < |s| ==> s[i] < n) && x < n && x !in s
    ensures |s| < n
  {
    Pigeonhole(s + [x], n);
  }

  /** A 16-bit ring holds, from `first` up to `idx`, the entries q. */
  ghost predicate RingHolds(ring: seq<nat>, first: nat, idx: nat, q: seq<nat>) {
    && |ring| == NUM && first < WRAP && idx == (first + |q|) % WRAP
    && forall k :: 0 <= k < |q| ==> ring[SlotAt(first, k)] == q[k]
  }

  lemma RingPush(ring: seq<nat>, first: nat, idx: nat, q: seq<nat>, x: nat)
    requires RingHolds(ring, first, idx, q) && |q| < NUM
    ensures idx % NUM == SlotAt(first, |q|)
    ensures RingHolds(ring[idx % NUM := x], first, idx, q) && RingHolds(ring[idx % NUM := x], first, Bump(idx), q + [x])
  {
    assert idx % NUM == SlotAt(first, |q|);
    forall k | 0 <= k < |q| ensures SlotAt(first, k) != idx % NUM { SlotsDiffer(first, k, |q|); }
  }

  lemma RingPop(ring: seq<nat>, first: nat, idx: nat, q: seq<nat>)
    requires RingHolds(ring, first, idx, q) && q != [] && |q| <= NUM
    ensures first != idx
    ensures ring[first % NUM] == q[0] && RingHolds(ring, Bump(first), idx, q[1..])
  {
    assert SlotAt(first, 0) == first % NUM;
    forall k | 0 <= k < |q| - 1 ensures ring[SlotAt(Bump(first), k)] == q[1..][k] { SlotBump(first, k); }
  }

  // The invariant.

  ghost predicate ChainOk(h: nat, r: Req, desc: seq<Desc>, infoB: seq<Option<nat>>, own: map<nat, nat>)
    requires |desc| == NUM && |infoB| == NUM
  {
    && h < NUM && r.d1 < NUM && r.d2 < NUM && h != r.d1 && h != r.d2 && r.d1 != r.d2
    && h in own && r.d1 in own && r.d2 in own && own[h] == h && own[r.d1] == h && own[r.d2] == h
    && desc[h].hasNext && desc[h].next == r.d1 && desc[r.d1].hasNext && desc[r.d1].next == r.d2 && !desc[r.d2].hasNext
    && infoB[h] == Some(r.b)
  }

  /** Each descriptor is free or in exactly one chain; `own` gives the head of its chain. */
  ghost predicate ChainsOk(free: seq<bool>, desc: seq<Desc>, infoB: seq<Option<nat>>, reqs: map<nat, Req>,
                           own: map<nat, nat>) {
    && |free| == NUM && |desc| == NUM && |infoB| == NUM
    && (forall h :: h in reqs ==> ChainOk(h, reqs[h], desc, infoB, own))
    && (forall i :: i in own ==> i < NUM && own[i] in reqs && InChain(own[i], reqs[own[i]], i))
    && (forall i: nat :: i < NUM ==> (free[i] <==> i !in own))
  }

  /** Each buffer is in at most one request, and b->disk is set until that request is released. */
  ghost predicate BuffersOk(reqs: map<nat, Req>, headOf: map<nat, nat>, busy: set<nat>) {
    && (forall h :: h in reqs ==> reqs[h].b in headOf && headOf[reqs[h].b] == h)
    && (forall b :: b in headOf ==> headOf[b] in reqs && reqs[headOf[b]].b == b)
    && (forall b :: b in busy <==> b in headOf && reqs[headOf[b]].phase != Done)
  }

  /** q lists, once each, the requests in a phase. */
  ghost predicate Lists(q: seq<nat>, reqs: map<nat, Req>, phase: Phase) {
    && Distinct(q) && (forall h: nat :: h in q <==> h in reqs && reqs[h].phase == phase)
    && (forall k :: 0 <= k < |q| ==> q[k] in reqs && reqs[q[k]].phase == phase)
  }

  ghost function Ids(q: seq<nat>, reqs: map<nat, Req>): (s: seq<nat>)
    requires forall k :: 0 <= k < |q| ==> q[k] in reqs
    ensures |s| == |q| && forall k :: 0 <= k < |q| ==> s[k] == reqs[q[k]].id
  {
    seq(|q|, k requires 0 <= k < |q| => reqs[q[k]].id)
  }

  /** Requests are released to their waiters once each, in the order the device completed them. */
  ghost predicate LogOk(reqs: map<nat, Req>, usedq: seq<nat>, completed: seq<nat>, released: seq<nat>, nextid: nat) {
    && (forall k :: 0 <= k < |usedq| ==> usedq[k] in reqs)
    && completed == released + Ids(usedq, reqs) && Distinct(completed)
    && (forall x :: x in completed ==> x < nextid)
    && (forall h :: h in reqs ==> reqs[h].id < nextid && (reqs[h].id in released <==> reqs[h].phase == Done))
    && (forall h :: h in reqs ==> (reqs[h].id in completed <==> reqs[h].phase == Used || reqs[h].phase == Done))
    && UniqueIds(reqs)
  }

  ghost predicate UniqueIds(reqs: map<nat, Req>) {
    forall h, g :: h in reqs && g in reqs && reqs[h].id == reqs[g].id ==> h == g
  }

  lemma UniqueAt(reqs: map<nat, Req>, h: nat, g: nat)
    requires UniqueIds(reqs) && h in reqs && g in reqs && h != g
    ensures reqs[h].id != reqs[g].id
  {
  }

  lemma UniqueMoved(reqs: map<nat, Req>, h: nat, ph: Phase)
    requires UniqueIds(reqs) && h in reqs
    ensures UniqueIds(reqs[h := reqs[h].(phase := ph)])
  {
  }

  /** The request whose ring slot is written and not yet published, if there is one. */
  ghost predicate MadeOk(reqs: map<nat, Req>, made: Option<nat>, availRing: seq<nat>, availIdx: nat) {
    && (forall h :: h in reqs ==> (reqs[h].phase == Made <==> made == Some(h)))
    && (made.Some? ==> made.value in reqs && |availRing| == NUM && availRing[availIdx % NUM] == made.value)
  }

  /** A chain whose descriptors are left alone stays one. */
  lemma ChainKept(g: nat, r: Req, desc: seq<Desc>, infoB: seq<Option<nat>>, own: map<nat, nat>, desc': seq<Desc>,
                  infoB': seq<Option<nat>>, own': map<nat, nat>)
    requires |desc| == NUM && |infoB| == NUM && |desc'| == NUM && |infoB'| == NUM && ChainOk(g, r, desc, infoB, own)
             && infoB'[g] == infoB[g]
    requires forall i: nat :: InChain(g, r, i) ==> desc'[i] == desc[i] && i in own' && own'[i] == own[i]
    ensures ChainOk(g, r, desc', infoB', own')
  {
    assert InChain(g, r, g) && InChain(g, r, r.d1) && InChain(g, r, r.d2);
  }

  lemma ChainFacts(g: nat, r: Req, desc: seq<Desc>, infoB: seq<Option<nat>>, own: map<nat, nat>)
    requires |desc| == NUM && |infoB| == NUM && ChainOk(g, r, desc, infoB, own)
    ensures g < NUM && r.d1 < NUM && r.d2 < NUM
    ensures forall i: nat :: InChain(g, r, i) ==> i < NUM && i in own && own[i] == g
  {
  }

  // A new request.

  lemma ThisChain(desc: seq<Desc>, infoB: seq<Option<nat>>, own: map<nat, nat>, h: nat, r: Req)
    requires |desc| == NUM && |infoB| == NUM && h < NUM && r.d1 < NUM && r.d2 < NUM && h != r.d1 && h != r.d2
             && r.d1 != r.d2
    requires h in own && r.d1 in own && r.d2 in own && own[h] == h && own[r.d1] == h && own[r.d2] == h
             && infoB[h] == Some(r.b)
    requires desc[h].hasNext && desc[h].next == r.d1 && desc[r.d1].hasNext && desc[r.d1].next == r.d2
             && !desc[r.d2].hasNext
    ensures ChainOk(h, r, desc, infoB, own)
  {
  }

  lemma NewChain(free: seq<bool>, desc: seq<Desc>, desc': seq<Desc>, infoB: seq<Option<nat>>, reqs: map<nat, Req>,
                 own: map<nat, nat>, h: nat, r: Req)
    requires ChainsOk(free, desc, infoB, reqs, own) && h < NUM && r.d1 < NUM && r.d2 < NUM && h != r.d1 && h != r.d2
             && r.d1 != r.d2
    requires free[h] && free[r.d1] && free[r.d2] && |desc'| == NUM && forall i: nat :: i < NUM && !free[i] ==>
               desc'[i] == desc[i]
    requires desc'[h].hasNext && desc'[h].next == r.d1 && desc'[r.d1].hasNext && desc'[r.d1].next == r.d2
             && !desc'[r.d2].hasNext
    ensures h !in reqs
    ensures ChainsOk(free[h := false][r.d1 := false][r.d2 := false], desc', infoB[h := Some(r.b)], reqs[h := r],
                     own[h := h][r.d1 := h][r.d2 := h])
  {
    hide ChainOk;
    var own', info := own[h := h][r.d1 := h][r.d2 := h], infoB[h := Some(r.b)];
    ThisChain(desc', info, own', h, r);
    if h in reqs { ChainFacts(h, reqs[h], desc, infoB, own); }
    forall g | g in reqs ensures ChainOk(g, reqs[g], desc', info, own') {
      ChainFacts(g, reqs[g], desc, infoB, own);
      assert InChain(g, reqs[g], g);
      ChainKept(g, reqs[g], desc, infoB, own, desc', info, own');
    }
  }

  lemma NewBuffer(reqs: map<nat, Req>, headOf: map<nat, nat>, busy: set<nat>, h: nat, r: Req)
    requires BuffersOk(reqs, headOf, busy) && h !in reqs && r.b !in headOf && r.phase != Done
    ensures BuffersOk(reqs[h := r], headOf[r.b := h], busy + {r.b})
  {
  }

  /** A request enters or leaves a list, or neither, when it changes phase. */
  lemma ListSame(q: seq<nat>, reqs: map<nat, Req>, phase: Phase, h: nat, r: Req)
    requires Lists(q, reqs, phase) && r.phase != phase && (h in reqs ==> reqs[h].phase != phase)
    ensures Lists(q, reqs[h := r], phase)
  {
  }

  lemma ListPush(q: seq<nat>, reqs: map<nat, Req>, phase: Phase, h: nat, r: Req)
    requires Lists(q, reqs, phase) && r.phase == phase && (h in reqs ==> reqs[h].phase != phase)
    ensures Lists(q + [h], reqs[h := r], phase)
  {
    assert h !in q;
  }

  lemma ListPop(q: seq<nat>, reqs: map<nat, Req>, phase: Phase, r: Req)
    requires Lists(q, reqs, phase) && q != [] && r.phase != phase
    ensures Lists(q[1..], reqs[q[0] := r], phase)
  {
    assert q == [q[0]] + q[1..];
  }

  /** Fewer than NUM requests are in a list when one is not. */
  lemma ListShort(free: seq<bool>, desc: seq<Desc>, infoB: seq<Option<nat>>, reqs: map<nat, Req>, own: map<nat, nat>,
                  q: seq<nat>, phase: Phase, h: nat)
    requires ChainsOk(free, desc, infoB, reqs, own) && Lists(q, reqs, phase) && h < NUM && h !in q
    ensures |q| < NUM
  {
    forall k | 0 <= k < |q| ensures q[k] < NUM { assert ChainOk(q[k], reqs[q[k]], desc, infoB, own); }
    PigeonholeMissing(q, NUM, h);
  }

  lemma NewLog(reqs: map<nat, Req>, usedq: seq<nat>, completed: seq<nat>, released: seq<nat>, nextid: nat, h: nat,
               r: Req)
    requires LogOk(reqs, usedq, completed, released, nextid) && h !in reqs && r.id == nextid && r.phase == Made
    ensures LogOk(reqs[h := r], usedq, completed, released, nextid + 1)
  {
    assert Ids(usedq, reqs[h := r]) == Ids(usedq, reqs);
    assert forall x :: x in released ==> x in completed;
  }

  // A request moves on.

  lemma MovedChain(free: seq<bool>, desc: seq<Desc>, infoB: seq<Option<nat>>, reqs: map<nat, Req>, own: map<nat, nat>,
                   h: nat, ph: Phase)
    requires ChainsOk(free, desc, infoB, reqs, own) && h in reqs
    ensures ChainsOk(free, desc, infoB, reqs[h := reqs[h].(phase := ph)], own)
  {
    forall g | g in reqs ensures ChainOk(g, reqs[h := reqs[h].(phase := ph)][g], desc, infoB, own) {
      assert ChainOk(g, reqs[g], desc, infoB, own);
    }
  }

  lemma MovedBuffer(reqs: map<nat, Req>, headOf: map<nat, nat>, busy: set<nat>, h: nat, ph: Phase)
    requires BuffersOk(reqs, headOf, busy) && h in reqs && reqs[h].phase != Done
    ensures BuffersOk(reqs[h := reqs[h].(phase := ph)], headOf, if ph == Done then busy - {reqs[h].b} else busy)
  {
  }

  /** Before completion, the logs do not notice. */
  lemma MovedLog(reqs: map<nat, Req>, usedq: seq<nat>, completed: seq<nat>, released: seq<nat>, nextid: nat, h: nat,
                 ph: Phase)
    requires LogOk(reqs, usedq, completed, released, nextid) && h in reqs
    requires reqs[h].phase != Used && reqs[h].phase != Done && ph != Used && ph != Done
    ensures LogOk(reqs[h := reqs[h].(phase := ph)], usedq, completed, released, nextid)
  {
    assert Ids(usedq, reqs[h := reqs[h].(phase := ph)]) == Ids(usedq, reqs);
  }

  lemma CompletedLog(reqs: map<nat, Req>, usedq: seq<nat>, completed: seq<nat>, released: seq<nat>, nextid: nat, h: nat)
    requires LogOk(reqs, usedq, completed, released, nextid) && h in reqs && reqs[h].phase == Working
    ensures LogOk(reqs[h := reqs[h].(phase := Used)], usedq + [h], completed + [reqs[h].id], released, nextid)
  {
    assert Ids(usedq + [h], reqs[h := reqs[h].(phase := Used)]) == Ids(usedq, reqs) + [reqs[h].id];
    assert completed + [reqs[h].id] == released + (Ids(usedq, reqs) + [reqs[h].id]);
  }

  lemma ReleasedLog(reqs: map<nat, Req>, usedq: seq<nat>, completed: seq<nat>, released: seq<nat>, nextid: nat)
    requires LogOk(reqs, usedq, completed, released, nextid) && usedq != [] && reqs[usedq[0]].phase == Used
    ensures var h := usedq[0];
            LogOk(reqs[h := reqs[h].(phase := Done)], usedq[1..], completed, released + [reqs[h].id], nextid)
  {
    hide Distinct, Ids, UniqueIds;
    var h := usedq[0];
    var x := reqs[h].id;
    var reqs' := reqs[h := reqs[h].(phase := Done)];
    PoppedIds(reqs, reqs', usedq);
    UniqueMoved(reqs, h, Done);
    forall g | g in reqs && g != h ensures reqs[g].id != x { UniqueAt(reqs, g, h); }
    assert released + ([x] + Ids(usedq[1..], reqs')) == (released + [x]) + Ids(usedq[1..], reqs');
  }

  lemma PoppedIds(reqs: map<nat, Req>, reqs': map<nat, Req>, q: seq<nat>)
    requires q != [] && (forall k :: 0 <= k < |q| ==> q[k] in reqs) && reqs' == reqs[q[0] := reqs[q[0]].(phase := Done)]
    ensures forall k :: 0 <= k < |q[1..]| ==> q[1..][k] in reqs'
    ensures Ids(q, reqs) == [reqs[q[0]].id] + Ids(q[1..], reqs')
  {
  }

  // A request is over.

  lemma OverChain(free: seq<bool>, desc: seq<Desc>, infoB: seq<Option<nat>>, reqs: map<nat, Req>, own: map<nat, nat>,
                  h: nat)
    requires ChainsOk(free, desc, infoB, reqs, own) && h in reqs
    ensures var r := reqs[h];
            h < NUM && r.d1 < NUM && r.d2 < NUM
            && ChainsOk(free[h := true][r.d1 := true][r.d2 := true], desc[h := CLEAR][r.d1 := CLEAR][r.d2 := CLEAR],
                        infoB[h := None], reqs - {h}, own - {h, r.d1, r.d2})
  {
    hide ChainOk;
    var r := reqs[h];
    ChainFacts(h, r, desc, infoB, own);
    var desc', own', info := desc[h := CLEAR][r.d1 := CLEAR][r.d2 := CLEAR], own - {h, r.d1, r.d2}, infoB[h := None];
    forall g | g in reqs - {h} ensures ChainOk(g, reqs[g], desc', info, own') {
      ChainFacts(g, reqs[g], desc, infoB, own);
      assert InChain(g, reqs[g], g);
      ChainKept(g, reqs[g], desc, infoB, own, desc', info, own');
    }
    forall i: nat | i in own && own[i] == h ensures InChain(h, r, i) {}
    assert InChain(h, r, h) && InChain(h, r, r.d1) && InChain(h, r, r.d2);
  }

  lemma OverRest(reqs: map<nat, Req>, headOf: map<nat, nat>, busy: set<nat>, queue: seq<nat>, usedq: seq<nat>,
                 completed: seq<nat>, released: seq<nat>, nextid: nat, h: nat)
    requires BuffersOk(reqs, headOf, busy) && Lists(queue, reqs, Queued) && Lists(usedq, reqs, Used)
    requires LogOk(reqs, usedq, completed, released, nextid) && h in reqs && reqs[h].phase == Done
    ensures BuffersOk(reqs - {h}, headOf - {reqs[h].b}, busy) && Lists(queue, reqs - {h}, Queued)
            && Lists(usedq, reqs - {h}, Used)
    ensures LogOk(reqs - {h}, usedq, completed, released, nextid)
  {
    assert Ids(usedq, reqs - {h}) == Ids(usedq, reqs);
  }

  lemma SizesOf(free: seq<bool>, desc: seq<Desc>, infoB: seq<Option<nat>>, reqs: map<nat, Req>, own: map<nat, nat>)
    requires ChainsOk(free, desc, infoB, reqs, own)
    ensures |free| == NUM && |desc| == NUM && |infoB| == NUM
  {
  }

  lemma RingSize(ring: seq<nat>, first: nat, idx: nat, q: seq<nat>)
    requires RingHolds(ring, first, idx, q)
    ensures |ring| == NUM
  {
  }

  lemma HeadSmall(free: seq<bool>, desc: seq<Desc>, infoB: seq<Option<nat>>, reqs: map<nat, Req>, own: map<nat, nat>,
                  h: nat)
    requires ChainsOk(free, desc, infoB, reqs, own) && h in reqs
    ensures h < NUM
  {
    assert ChainOk(h, reqs[h], desc, infoB, own);
  }

  /** A chain is linked through its three descriptors, none of them free. */
  lemma ChainLinks(free: seq<bool>, desc: seq<Desc>, infoB: seq<Option<nat>>, reqs: map<nat, Req>, own: map<nat, nat>,
                   h: nat)
    requires ChainsOk(free, desc, infoB, reqs, own) && h in reqs
    ensures |free| == NUM && |desc| == NUM
    ensures var r := reqs[h];
            && h < NUM && r.d1 < NUM && r.d2 < NUM && h != r.d1 && h != r.d2 && r.d1 != r.d2 && !free[h] && !free[r.d1]
               && !free[r.d2]
            && desc[h].hasNext && desc[h].next == r.d1 && desc[r.d1].hasNext && desc[r.d1].next == r.d2
               && !desc[r.d2].hasNext
  {
    assert ChainOk(h, reqs[h], desc, infoB, own);
  }

  lemma InfoIs(free: seq<bool>, desc: seq<Desc>, infoB: seq<Option<nat>>, reqs: map<nat, Req>, own: map<nat, nat>,
               h: nat)
    requires ChainsOk(free, desc, infoB, reqs, own) && h in reqs
    ensures h < |infoB| && infoB[h] == Some(reqs[h].b)
  {
    assert ChainOk(h, reqs[h], desc, infoB, own);
  }

  /** alloc3_desc may have cleared free descriptors, which are in no chain. */
  lemma DescsOfFree(free: seq<bool>, desc: seq<Desc>, desc': seq<Desc>, infoB: seq<Option<nat>>, reqs: map<nat, Req>,
                    own: map<nat, nat>)
    requires ChainsOk(free, desc, infoB, reqs, own) && |desc'| == NUM && forall i: nat :: i < NUM && !free[i] ==>
               desc'[i] == desc[i]
    ensures ChainsOk(free, desc', infoB, reqs, own)
  {
    hide ChainOk;
    forall g | g in reqs ensures ChainOk(g, reqs[g], desc', infoB, own) {
      ChainFacts(g, reqs[g], desc, infoB, own);
      ChainKept(g, reqs[g], desc, infoB, own, desc', infoB, own);
    }
  }

  lemma ListBounded(free: seq<bool>, desc: seq<Desc>, infoB: seq<Option<nat>>, reqs: map<nat, Req>, own: map<nat, nat>,
                    q: seq<nat>, phase: Phase)
    requires ChainsOk(free, desc, infoB, reqs, own) && Lists(q, reqs, phase)
    ensures |q| <= NUM
  {
    forall k | 0 <= k < |q| ensures q[k] < NUM { assert ChainOk(q[k], reqs[q[k]], desc, infoB, own); }
    Pigeonhole(q, NUM);
  }

  lemma ListShort2(free: seq<bool>, desc: seq<Desc>, infoB: seq<Option<nat>>, reqs: map<nat, Req>, own: map<nat, nat>,
                   q: seq<nat>, h: nat)
    requires ChainsOk(free, desc, infoB, reqs, own) && Lists(q, reqs, Queued) && h < NUM && h !in reqs
    ensures |q| < NUM
  {
    assert h !in q;
    ListShort(free, desc, infoB, reqs, own, q, Queued, h);
  }

  lemma RingNonEmpty(ring: seq<nat>, first: nat, idx: nat, q: seq<nat>)
    requires RingHolds(ring, first, idx, q) && first != idx
    ensures q != []
  {
  }

  lemma ListHead(q: seq<nat>, reqs: map<nat, Req>, phase: Phase)
    requires Lists(q, reqs, phase) && q != []
    ensures q[0] in reqs && reqs[q[0]].phase == phase
  {
  }

  lemma ListMisses(q: seq<nat>, reqs: map<nat, Req>, phase: Phase, h: nat)
    requires Lists(q, reqs, phase) && (h in reqs ==> reqs[h].phase != phase)
    ensures h !in q
  {
  }

  lemma BufferBusy(reqs: map<nat, Req>, headOf: map<nat, nat>, busy: set<nat>, h: nat)
    requires BuffersOk(reqs, headOf, busy) && h in reqs
    ensures reqs[h].b in busy <==> reqs[h].phase != Done
  {
  }

  lemma MadeMoved(reqs: map<nat, Req>, made: Option<nat>, availRing: seq<nat>, availIdx: nat, h: nat, ph: Phase)
    requires MadeOk(reqs, made, availRing, availIdx) && h in reqs && reqs[h].phase != Made && ph != Made
    ensures MadeOk(reqs[h := reqs[h].(phase := ph)], made, availRing, availIdx)
  {
  }

  lemma MadeNew(reqs: map<nat, Req>, ring: seq<nat>, idx: nat, h: nat, r: Req)
    requires MadeOk(reqs, None, ring, idx) && |ring| == NUM && h !in reqs && r.phase == Made
    ensures MadeOk(reqs[h := r], Some(h), ring[idx % NUM := h], idx)
  {
  }

  lemma MadePublished(reqs: map<nat, Req>, h: nat, ring: seq<nat>, idx: nat)
    requires MadeOk(reqs, Some(h), ring, idx)
    ensures h in reqs && reqs[h].phase == Made && |ring| == NUM && ring[idx % NUM := h] == ring
    ensures MadeOk(reqs[h := reqs[h].(phase := Queued)], None, ring, Bump(idx))
  {
  }

  lemma NewSummary(free: seq<bool>, desc: seq<Desc>, infoB: seq<Option<nat>>, reqs: map<nat, Req>, own: map<nat, nat>,
                   headOf: map<nat, nat>, busy: set<nat>,
                   queue: seq<nat>, usedq: seq<nat>, ring: seq<nat>, first: nat, idx: nat, completed: seq<nat>,
                       released: seq<nat>, nextid: nat, h: nat, r: Req)
    requires ChainsOk(free, desc, infoB, reqs, own) && BuffersOk(reqs, headOf, busy) && Lists(queue, reqs, Queued)
             && Lists(usedq, reqs, Used)
    requires RingHolds(ring, first, idx, queue) && MadeOk(reqs, None, ring, idx)
             && LogOk(reqs, usedq, completed, released, nextid)
    requires h < NUM && h !in reqs && r.b !in headOf && r.phase == Made && r.id == nextid
    ensures BuffersOk(reqs[h := r], headOf[r.b := h], busy + {r.b}) && Lists(queue, reqs[h := r], Queued)
            && Lists(usedq, reqs[h := r], Used)
    ensures RingHolds(ring[idx % NUM := h], first, idx, queue)
            && MadeOk(reqs[h := r], Some(h), ring[idx % NUM := h], idx)
    ensures LogOk(reqs[h := r], usedq, completed, released, nextid + 1)
  {
    hide ChainsOk, BuffersOk, Lists, LogOk, RingHolds, MadeOk, TakenOk;
    RingSize(ring, first, idx, queue);
    NewBuffer(reqs, headOf, busy, h, r);
    NewLog(reqs, usedq, completed, released, nextid, h, r);
    ListShort2(free, desc, infoB, reqs, own, queue, h);
    ListSame(queue, reqs, Queued, h, r);
    ListSame(usedq, reqs, Used, h, r);
    RingPush(ring, first, idx, queue, h);
    MadeNew(reqs, ring, idx, h, r);
  }

  lemma LogDone(reqs: map<nat, Req>, usedq: seq<nat>, completed: seq<nat>, released: seq<nat>, nextid: nat, h: nat)
    requires LogOk(reqs, usedq, completed, released, nextid) && h in reqs
    ensures reqs[h].phase == Done <==> reqs[h].id in released
  {
  }

  lemma MadeOver(reqs: map<nat, Req>, made: Option<nat>, ring: seq<nat>, idx: nat, h: nat)
    requires MadeOk(reqs, made, ring, idx) && h in reqs && reqs[h].phase == Done
    ensures MadeOk(reqs - {h}, made, ring, idx)
  {
  }

  /** What the device may do: take a request, or complete one it has taken. */
  datatype Act = Take | Complete(head: nat, status: nat)

  /** Requests whose waiter has not been released. */
  ghost function Pending(reqs: map<nat, Req>): (s: set<nat>) { set h | h in reqs && reqs[h].phase != Done }

  lemma PendingHas(reqs: map<nat, Req>, h: nat)
    requires h in reqs && reqs[h].phase != Done
    ensures h in Pending(reqs) && |Pending(reqs) - {h}| < |Pending(reqs)|
  {
  }

  lemma RingEmpty(ring: seq<nat>, first: nat, idx: nat, q: seq<nat>)
    requires RingHolds(ring, first, idx, q) && |q| <= NUM && first == idx
    ensures q == []
  {
  }

  lemma LogEnd(reqs: map<nat, Req>, usedq: seq<nat>, completed: seq<nat>, released: seq<nat>, nextid: nat)
    requires LogOk(reqs, usedq, completed, released, nextid)
    ensures usedq == [] ==> released == completed
  {
  }

  lemma PendingMoved(reqs: map<nat, Req>, h: nat, ph: Phase)
    requires h in reqs && reqs[h].phase != Done
    ensures Pending(reqs[h := reqs[h].(phase := ph)]) == if ph == Done then Pending(reqs) - {h} else Pending(reqs)
  {
  }

  ghost predicate TakenOk(reqs: map<nat, Req>, taken: set<nat>) {
    forall h: nat :: h in taken <==> h in reqs && reqs[h].phase == Working
  }

  lemma TakenIs(reqs: map<nat, Req>, taken: set<nat>, h: nat)
    requires TakenOk(reqs, taken) && h in taken
    ensures h in reqs && reqs[h].phase == Working
  {
  }

  lemma TakenMoved(reqs: map<nat, Req>, taken: set<nat>, h: nat, r: Req)
    requires TakenOk(reqs, taken)
    ensures TakenOk(reqs[h := r], if r.phase == Working then taken + {h} else taken - {h})
    ensures r.phase != Working && (h in reqs ==> reqs[h].phase != Working) ==> TakenOk(reqs[h := r], taken)
    ensures h in reqs && reqs[h].phase != Working ==> TakenOk(reqs - {h}, taken)
  {
  }

  /** A request past its avail slot moves on: what does not depend on the rings. */
  lemma MoveSummary(free: seq<bool>, desc: seq<Desc>, infoB: seq<Option<nat>>, reqs: map<nat, Req>, own: map<nat, nat>,
                    headOf: map<nat, nat>,
                    busy: set<nat>, made: Option<nat>, ring: seq<nat>, idx: nat, taken: set<nat>, h: nat, ph: Phase,
                        reqs': map<nat, Req>)
    requires ChainsOk(free, desc, infoB, reqs, own) && BuffersOk(reqs, headOf, busy) && MadeOk(reqs, made, ring, idx)
             && TakenOk(reqs, taken)
    requires h in reqs && reqs[h].phase != Done && reqs[h].phase != Made && ph != Made
             && reqs' == reqs[h := reqs[h].(phase := ph)]
    ensures ChainsOk(free, desc, infoB, reqs', own)
            && BuffersOk(reqs', headOf, if ph == Done then busy - {reqs[h].b} else busy)
    ensures MadeOk(reqs', made, ring, idx) && TakenOk(reqs', if ph == Working then taken + {h} else taken - {h})
    ensures ph != Working && reqs[h].phase != Working ==> TakenOk(reqs', taken)
    ensures h < NUM && reqs[h].b in busy && infoB[h] == Some(reqs[h].b) && |free| == NUM && |desc| == NUM
            && |infoB| == NUM
  {
    hide ChainsOk, BuffersOk, MadeOk, TakenOk;
    SizesOf(free, desc, infoB, reqs, own);
    HeadSmall(free, desc, infoB, reqs, own, h);
    InfoIs(free, desc, infoB, reqs, own, h);
    BufferBusy(reqs, headOf, busy, h);
    MovedChain(free, desc, infoB, reqs, own, h, ph);
    MovedBuffer(reqs, headOf, busy, h, ph);
    MadeMoved(reqs, made, ring, idx, h, ph);
    TakenMoved(reqs, taken, h, reqs[h].(phase := ph));
  }

  /** The head of a ring that is not empty, and the ring without it. */
  lemma PopSummary(free: seq<bool>, desc: seq<Desc>, infoB: seq<Option<nat>>, reqs: map<nat, Req>, own: map<nat, nat>,
                   ring: seq<nat>, first: nat, idx: nat, q: seq<nat>, phase: Phase, other: seq<nat>, phase': Phase,
                       ph: Phase)
    requires ChainsOk(free, desc, infoB, reqs, own) && Lists(q, reqs, phase) && Lists(other, reqs, phase')
             && phase != phase'
    requires RingHolds(ring, first, idx, q) && first != idx && ph != phase && ph != phase'
    ensures q != [] && q[0] in reqs && reqs[q[0]].phase == phase && |ring| == NUM && ring[first % NUM] == q[0]
    ensures var reqs' := reqs[q[0] := reqs[q[0]].(phase := ph)];
            Lists(q[1..], reqs', phase) && Lists(other, reqs', phase') && RingHolds(ring, Bump(first), idx, q[1..])
  {
    hide ChainsOk, Lists, RingHolds;
    RingNonEmpty(ring, first, idx, q);
    RingSize(ring, first, idx, q);
    ListHead(q, reqs, phase);
    ListBounded(free, desc, infoB, reqs, own, q, phase);
    RingPop(ring, first, idx, q);
    ListPop(q, reqs, phase, reqs[q[0]].(phase := ph));
    ListSame(other, reqs, phase', q[0], reqs[q[0]].(phase := ph));
  }

  /** A request added to a ring that has room for every descriptor. */
  lemma PushSummary(free: seq<bool>, desc: seq<Desc>, infoB: seq<Option<nat>>, reqs: map<nat, Req>, own: map<nat, nat>,
                    ring: seq<nat>, first: nat, idx: nat, q: seq<nat>, phase: Phase, other: seq<nat>, phase': Phase,
                        h: nat)
    requires ChainsOk(free, desc, infoB, reqs, own) && Lists(q, reqs, phase) && Lists(other, reqs, phase')
             && phase != phase'
    requires RingHolds(ring, first, idx, q) && h in reqs && reqs[h].phase != phase && reqs[h].phase != phase'
    ensures |ring| == NUM && h < NUM
    ensures var reqs' := reqs[h := reqs[h].(phase := phase)];
            Lists(q + [h], reqs', phase) && Lists(other, reqs', phase')
            && RingHolds(ring[idx % NUM := h], first, Bump(idx), q + [h])
  {
    hide ChainsOk, Lists, RingHolds;
    HeadSmall(free, desc, infoB, reqs, own, h);
    RingSize(ring, first, idx, q);
    ListMisses(q, reqs, phase, h);
    ListShort(free, desc, infoB, reqs, own, q, phase, h);
    RingPush(ring, first, idx, q, h);
    ListPush(q, reqs, phase, h, reqs[h].(phase := phase));
    ListSame(other, reqs, phase', h, reqs[h].(phase := phase));
  }

  /** Three descriptors are free. */
  ghost predicate HasThree(free: seq<bool>)
    requires |free| == NUM
  {
    exists a: nat, b: nat, c: nat ::
      a < NUM && b < NUM && c < NUM && a != b && a != c && b != c && free[a] && free[b] && free[c]
  }

  class Disk {
    var desc: seq<Desc>
    var availIdx: nat
    var availRing: seq<nat>
    var usedIdx: nat          // written by the device
    var usedRing: seq<nat>    // written by the device
    var free: seq<bool>
    var seenUsed: nat         // disk.used_idx
    var infoB: seq<Option<nat>>
    var infoStatus: seq<nat>
    var busy: set<nat>        // the buffers b with b->disk == 1
    var seenAvail: nat        // the device's own index into the avail ring
    var taken: set<nat>       // the requests the device is working on
    ghost var reqs: map<nat, Req>   // by the head of the chain
    ghost var own: map<nat, nat>
    ghost var headOf: map<nat, nat>
    ghost var queue: seq<nat>
    ghost var usedq: seq<nat>
    ghost var made: Option<nat>
    ghost var completed: seq<nat>
    ghost var released: seq<nat>
    ghost var nextid: nat

    ghost predicate Valid()
      reads this
    {
      && ChainsOk(free, desc, infoB, reqs, own) && BuffersOk(reqs, headOf, busy) && |infoStatus| == NUM
      && Lists(queue, reqs, Queued) && Lists(usedq, reqs, Used)
      && RingHolds(availRing, seenAvail, availIdx, queue) && RingHolds(usedRing, seenUsed, usedIdx, usedq)
      && MadeOk(reqs, made, availRing, availIdx) && LogOk(reqs, usedq, completed, released, nextid)
         && TakenOk(reqs, taken)
    }

    /** virtio_disk_init: all descriptors free, both rings empty. */
    constructor ()
      ensures Valid() && reqs == map[] && made == None && busy == {} && taken == {} && completed == [] && released == []
              && nextid == 0 && queue == [] && usedq == []
    {
      desc, free := seq(NUM, _ => CLEAR), seq(NUM, _ => true);
      infoB, infoStatus := seq(NUM, _ => None), seq(NUM, _ => 0);
      availIdx, availRing, usedIdx, usedRing, seenUsed, seenAvail := 0, seq(NUM, _ => 0), 0, seq(NUM, _ => 0), 0, 0;
      busy, taken, reqs, own, headOf, queue, usedq, made, completed, released, nextid := {}, {}, map[], map[], map[],
          [], [], None, [], [], 0;
    }

    /** alloc_desc: the lowest free descriptor, or -1. */
    method AllocDesc() returns (i: int)
      requires |free| == NUM
      modifies `free
      ensures i == -1 ==> free == old(free) && forall k: nat :: k < NUM ==> !free[k]
      ensures i != -1 ==>
                0 <= i < NUM && old(free)[i] && free == old(free)[i := false] && forall k: nat :: k < i ==> !free[k]
    {
      i := 0;
      while i < NUM
        invariant 0 <= i <= NUM && free == old(free) && forall k: nat :: k < i ==> !free[k]
      {
        if free[i] {
          free := free[i := false];
          return;
        }
        i := i + 1;
      }
      i := -1;
    }

    /** free_desc; false where it panics. */
    method FreeDesc(i: nat) returns (ok: bool)
      requires |free| == NUM && |desc| == NUM
      modifies `free, `desc
      ensures ok <==> i < NUM && !old(free)[i]
      ensures ok ==> free == old(free)[i := true] && desc == old(desc)[i := CLEAR]
      ensures !ok ==> free == old(free) && desc == old(desc)
    {
      if i >= NUM || free[i] { return false; }
      desc := desc[i := CLEAR];
      free := free[i := true];
      ok := true;
    }

    /** alloc3_desc: three free descriptors, or none. */
    method Alloc3() returns (ok: bool, idx: seq<nat>)
      requires |free| == NUM && |desc| == NUM
      modifies `free, `desc
      ensures |free| == NUM && |desc| == NUM && forall i: nat :: i < NUM && !old(free)[i] ==> desc[i] == old(desc)[i]
      ensures ok ==> |idx| == 3 && idx[0] < NUM && idx[1] < NUM && idx[2] < NUM && idx[0] != idx[1] && idx[0] != idx[2]
                     && idx[1] != idx[2]
      ensures ok ==> old(free)[idx[0]] && old(free)[idx[1]] && old(free)[idx[2]]
                     && free == old(free)[idx[0] := false][idx[1] := false][idx[2] := false]
      ensures !ok ==> free == old(free)
      ensures ok <==> old(HasThree(free))
    {
      idx := [];
      var i := 0;
      while i < 3
        invariant 0 <= i <= 3 && |idx| == i && |free| == NUM && desc == old(desc)
        invariant forall j: nat :: j < i ==>
                    idx[j] < NUM && old(free)[idx[j]] && forall k: nat :: k < j ==> idx[k] != idx[j]
        invariant forall k: nat :: k < NUM ==> (free[k] <==> old(free)[k] && k !in idx)
        invariant i == 3 ==> free == old(free)[idx[0] := false][idx[1] := false][idx[2] := false]
      {
        var d := AllocDesc();
        if d < 0 {
          ok := Rollback(idx, old(free));
          return;
        }
        idx := idx + [d];
        i := i + 1;
      }
      ok := true;
    }

    /** The undo loop of alloc3_desc. */
    method Rollback(idx: seq<nat>, ghost was: seq<bool>) returns (ok: bool)
      requires |free| == NUM && |desc| == NUM && |was| == NUM && |idx| < 3
      requires forall j: nat :: j < |idx| ==> idx[j] < NUM && was[idx[j]] && forall k: nat :: k < j ==> idx[k] != idx[j]
      requires forall k: nat :: k < NUM ==> !free[k] && (was[k] <==> k in idx)
      modifies `free, `desc
      ensures !ok && free == was && |desc| == NUM && forall i: nat :: i < NUM && !was[i] ==> desc[i] == old(desc)[i]
      ensures !HasThree(free)
    {
      var j := 0;
      while j < |idx|
        invariant 0 <= j <= |idx| && |free| == NUM && |desc| == NUM
        invariant forall k: nat :: k < NUM ==> (free[k] <==> k in idx[..j])
        invariant forall i: nat :: i < NUM && !was[i] ==> desc[i] == old(desc)[i]
      {
        var freed := FreeDesc(idx[j]);
        assert idx[..j + 1] == idx[..j] + [idx[j]];
        j := j + 1;
      }
      assert idx[..|idx|] == idx;
      ok := false;
    }
  
    /** The invariant but for the free list and the descriptors. */
    ghost predicate RestValid()
      reads this
    {
      && BuffersOk(reqs, headOf, busy) && |infoStatus| == NUM && Lists(queue, reqs, Queued) && Lists(usedq, reqs, Used)
      && RingHolds(availRing, seenAvail, availIdx, queue) && RingHolds(usedRing, seenUsed, usedIdx, usedq)
      && MadeOk(reqs, made, availRing, availIdx) && LogOk(reqs, usedq, completed, released, nextid)
         && TakenOk(reqs, taken)
    }

    /** The three descriptors: header, block, status byte. */
    method WriteChain(write: bool, idx: seq<nat>)
      requires |desc| == NUM && |infoStatus| == NUM
      requires |idx| == 3 && idx[0] < NUM && idx[1] < NUM && idx[2] < NUM && idx[0] != idx[1] && idx[0] != idx[2]
               && idx[1] != idx[2]
      modifies `desc, `infoStatus
      ensures |desc| == NUM && infoStatus == old(infoStatus)[idx[0] := 0xff]
      ensures desc[idx[0]] == Desc(idx[1], true, false) && desc[idx[1]] == Desc(idx[2], true, !write)
              && desc[idx[2]] == Desc(0, false, true)
      ensures forall i: nat :: i < NUM && i !in idx ==> desc[i] == old(desc)[i]
    {
      desc := desc[idx[0] := Desc(idx[1], true, false)];
      desc := desc[idx[1] := Desc(idx[2], true, !write)];
      infoStatus := infoStatus[idx[0] := 0xff];
      desc := desc[idx[2] := Desc(0, false, true)];
    }

    /** Format the three descriptors and store the head in the avail ring; `was` is the free list
        before they were taken. */
    method Format(b: nat, write: bool, idx: seq<nat>, ghost was: seq<bool>)
      requires RestValid() && ChainsOk(was, desc, infoB, reqs, own) && b !in headOf && made == None
      requires |idx| == 3 && idx[0] < NUM && idx[1] < NUM && idx[2] < NUM && idx[0] != idx[1] && idx[0] != idx[2]
               && idx[1] != idx[2]
      requires |was| == NUM && was[idx[0]] && was[idx[1]] && was[idx[2]]
               && free == was[idx[0] := false][idx[1] := false][idx[2] := false]
      modifies `desc, `infoB, `infoStatus, `busy, `availRing, `reqs, `own, `headOf, `made, `nextid
      ensures Valid() && idx[0] !in old(reqs) && made == Some(idx[0]) && busy == old(busy) + {b}
      ensures reqs == old(reqs)[idx[0] := Req(old(nextid), b, idx[1], idx[2], Made)] && nextid == old(nextid) + 1
      ensures infoStatus == old(infoStatus)[idx[0] := 0xff]
    {
      hide ChainsOk, BuffersOk, Lists, LogOk, RingHolds, MadeOk, TakenOk;
      var h := idx[0];
      SizesOf(was, desc, infoB, reqs, own);
      RingSize(availRing, seenAvail, availIdx, queue);
      ghost var desc0, r := desc, Req(nextid, b, idx[1], idx[2], Made);
      WriteChain(write, idx);
      NewChain(was, desc0, desc, infoB, reqs, own, h, r);
      NewSummary(was, desc0, infoB, reqs, own, headOf, busy, queue, usedq, availRing, seenAvail, availIdx, completed,
                 released, nextid, h, r);
      TakenMoved(reqs, taken, h, r);
      Enter(b, h, r);
    }

    /** Set b->disk, record the buffer, and store the head in the avail ring. */
    method Enter(b: nat, h: nat, ghost r: Req)
      requires h < |infoB| && |availRing| == NUM
      modifies `busy, `infoB, `availRing, `reqs, `own, `headOf, `made, `nextid
      ensures busy == old(busy) + {b} && infoB == old(infoB)[h := Some(b)]
              && availRing == old(availRing)[availIdx % NUM := h]
      ensures reqs == old(reqs)[h := r] && own == old(own)[h := h][r.d1 := h][r.d2 := h]
              && headOf == old(headOf)[b := h]
      ensures made == Some(h) && nextid == old(nextid) + 1
    {
      busy := busy + {b};
      infoB := infoB[h := Some(b)];
      availRing := availRing[availIdx % NUM := h];
      reqs, own, headOf, made, nextid := reqs[h := r], own[h := h][r.d1 := h][r.d2 := h], headOf[b := h], Some(h),
          nextid + 1;
    }

    /** virtio_disk_rw up to the store in the avail ring, with one attempt at the descriptors; where
        that fails the caller sleeps and tries again. The caller has b's sleep lock, so b is in no
        other request. */
    method Make(b: nat, write: bool) returns (ok: bool, h: nat)
      requires Valid() && b !in headOf && made == None
      modifies `free, `desc, `infoB, `infoStatus, `busy, `availRing, `reqs, `own, `headOf, `made, `nextid
      ensures Valid() && |old(free)| == NUM && (ok <==> old(HasThree(free)))
      ensures !ok ==> reqs == old(reqs) && busy == old(busy) && made == None && free == old(free)
                      && nextid == old(nextid) && infoStatus == old(infoStatus)
      ensures ok ==> h !in old(reqs) && made == Some(h) && busy == old(busy) + {b} && nextid == old(nextid) + 1
                     && h in reqs && reqs == old(reqs)[h := reqs[h]] && reqs[h].b == b && reqs[h].id == old(nextid)
                     && reqs[h].phase == Made && h < NUM && infoStatus == old(infoStatus)[h := 0xff]
    {
      hide ChainsOk, BuffersOk, Lists, LogOk, RingHolds, MadeOk, TakenOk;
      SizesOf(free, desc, infoB, reqs, own);
      ghost var free0, desc0 := free, desc;
      var got, idx := Alloc3();
      DescsOfFree(free0, desc0, desc, infoB, reqs, own);
      if !got { return false, 0; }
      Format(b, write, idx, free0);
      return true, idx[0];
    }

    /** disk.avail->idx += 1. */
    method Publish()
      requires Valid() && made.Some?
      modifies `availIdx, `reqs, `queue, `made
      ensures Valid() && made == None && reqs
          == old(reqs)[old(made).value := old(reqs)[old(made).value].(phase := Queued)]
      ensures queue == old(queue) + [old(made).value]
    {
      hide ChainsOk, BuffersOk, LogOk, Lists, RingHolds, MadeOk, TakenOk;
      ghost var h := made.value;
      MadePublished(reqs, h, availRing, availIdx);
      PushSummary(free, desc, infoB, reqs, own, availRing, seenAvail, availIdx, queue, Queued, usedq, Used, h);
      MovedChain(free, desc, infoB, reqs, own, h, Queued);
      MovedBuffer(reqs, headOf, busy, h, Queued);
      MovedLog(reqs, usedq, completed, released, nextid, h, Queued);
      TakenMoved(reqs, taken, h, reqs[h].(phase := Queued));
      availIdx := Bump(availIdx);
      reqs, queue, made := reqs[h := reqs[h].(phase := Queued)], queue + [h], None;
    }

    /** The device takes the next request from the avail ring. */
    method DeviceTake() returns (h: nat)
      requires Valid() && seenAvail != availIdx
      modifies `seenAvail, `taken, `reqs, `queue
      ensures Valid() && taken == old(taken) + {h} && old(queue) != [] && h == old(queue)[0] && queue == old(queue)[1..]
      ensures h in old(reqs) && old(reqs)[h].phase == Queued && reqs == old(reqs)[h := old(reqs)[h].(phase := Working)]
    {
      hide ChainsOk, BuffersOk, LogOk, Lists, RingHolds, MadeOk, TakenOk;
      PopSummary(free, desc, infoB, reqs, own, availRing, seenAvail, availIdx, queue, Queued, usedq, Used, Working);
      h := availRing[seenAvail % NUM];
      ghost var reqs' := reqs[h := reqs[h].(phase := Working)];
      MoveSummary(free, desc, infoB, reqs, own, headOf, busy, made, availRing, availIdx, taken, h, Working, reqs');
      MovedLog(reqs, usedq, completed, released, nextid, h, Working);
      seenAvail := Bump(seenAvail);
      taken := taken + {h};
      reqs, queue := reqs', queue[1..];
    }

    /** The device finishes any request it has taken, and reports it in the used ring. */
    method DeviceComplete(h: nat, status: nat)
      requires Valid() && h in taken
      modifies `usedIdx, `usedRing, `infoStatus, `taken, `reqs, `usedq, `completed
      ensures Valid() && h in old(reqs) && old(reqs)[h].phase == Working && taken == old(taken) - {h}
              && reqs == old(reqs)[h := old(reqs)[h].(phase := Used)]
      ensures usedq == old(usedq) + [h] && completed == old(completed) + [reqs[h].id]
      ensures h < NUM && infoStatus == old(infoStatus)[h := status]
    {
      hide ChainsOk, BuffersOk, LogOk, Lists, RingHolds, MadeOk, TakenOk;
      TakenIs(reqs, taken, h);
      ghost var reqs' := reqs[h := reqs[h].(phase := Used)];
      PushSummary(free, desc, infoB, reqs, own, usedRing, seenUsed, usedIdx, usedq, Used, queue, Queued, h);
      MoveSummary(free, desc, infoB, reqs, own, headOf, busy, made, availRing, availIdx, taken, h, Used, reqs');
      CompletedLog(reqs, usedq, completed, released, nextid, h);
      taken := taken - {h};
      infoStatus := infoStatus[h := status];
      usedRing := usedRing[usedIdx % NUM := h];
      usedIdx := Bump(usedIdx);
      reqs, usedq, completed := reqs', usedq + [h], completed + [reqs[h].id];
    }

    /** One round of the loop of virtio_disk_intr: false where it panics on the request's status. */
    method IntrOne() returns (ok: bool)
      requires Valid() && seenUsed != usedIdx
      modifies `seenUsed, `busy, `reqs, `usedq, `released
      ensures Valid() && old(usedq) != [] && old(usedq)[0] in old(reqs)
      ensures ok <==> infoStatus[old(usedq)[0]] == 0
      ensures !ok ==> reqs == old(reqs) && usedq == old(usedq) && busy == old(busy) && released == old(released)
      ensures ok ==> var h := old(usedq)[0];
                     && usedq == old(usedq)[1..] && reqs == old(reqs)[h := old(reqs)[h].(phase := Done)]
                     && busy == old(busy) - {old(reqs)[h].b} && old(reqs)[h].b in old(busy)
                        && released == old(released) + [old(reqs)[h].id]
    {
      hide ChainsOk, BuffersOk, LogOk, Lists, RingHolds, MadeOk, TakenOk;
      PopSummary(free, desc, infoB, reqs, own, usedRing, seenUsed, usedIdx, usedq, Used, queue, Queued, Done);
      var id := usedRing[seenUsed % NUM];
      ghost var reqs' := reqs[id := reqs[id].(phase := Done)];
      MoveSummary(free, desc, infoB, reqs, own, headOf, busy, made, availRing, availIdx, taken, id, Done, reqs');
      if infoStatus[id] != 0 { return false; }
      var b := infoB[id].value;
      ReleasedLog(reqs, usedq, completed, released, nextid);
      busy := busy - {b};
      seenUsed := Bump(seenUsed);
      reqs, usedq, released := reqs', usedq[1..], released + [reqs[id].id];
      ok := true;
    }
  
    /** free_chain: exactly the descriptors of the chain; free_desc does not panic. */
    method FreeChain(head: nat)
      requires ChainsOk(free, desc, infoB, reqs, own) && head in reqs
      modifies `free, `desc
      ensures head < NUM && reqs[head].d1 < NUM && reqs[head].d2 < NUM && |old(free)| == NUM && |old(desc)| == NUM
      ensures free == old(free)[head := true][reqs[head].d1 := true][reqs[head].d2 := true]
      ensures desc == old(desc)[head := CLEAR][reqs[head].d1 := CLEAR][reqs[head].d2 := CLEAR]
    {
      hide ChainsOk;
      ghost var r, f, d := reqs[head], free, desc;
      ChainLinks(free, desc, infoB, reqs, own, head);
      var i := head;
      ghost var k := 0;
      while true
        invariant 0 <= k <= 2 && |free| == NUM && |desc| == NUM
        invariant i == if k == 0 then head else if k == 1 then r.d1 else r.d2
        invariant free == if k == 0 then f else if k == 1 then f[head := true] else f[head := true][r.d1 := true]
        invariant desc == if k == 0 then d else if k == 1 then d[head := CLEAR] else d[head := CLEAR][r.d1 := CLEAR]
        decreases 2 - k
      {
        var flag := desc[i].hasNext;
        var nxt := desc[i].next;
        var ok := FreeDesc(i);
        assert ok;
        if flag { i := nxt; k := k + 1; } else { break; }
      }
    }

    /** The end of virtio_disk_rw: b->disk is no longer set, so the wait loop is over. */
    method Finish(h: nat)
      requires Valid() && h in reqs && reqs[h].b !in busy
      modifies `free, `desc, `infoB, `reqs, `own, `headOf
      ensures Valid() && reqs == old(reqs) - {h} && old(reqs)[h].phase == Done && old(reqs)[h].id in released
      ensures forall i: nat :: i < NUM ==> (free[i] <==> old(free)[i] || InChain(h, old(reqs)[h], i))
    {
      hide ChainsOk, BuffersOk, Lists, LogOk, RingHolds, MadeOk, TakenOk;
      BufferBusy(reqs, headOf, busy, h);
      LogDone(reqs, usedq, completed, released, nextid, h);
      HeadSmall(free, desc, infoB, reqs, own, h);
      SizesOf(free, desc, infoB, reqs, own);
      OverChain(free, desc, infoB, reqs, own, h);
      OverRest(reqs, headOf, busy, queue, usedq, completed, released, nextid, h);
      MadeOver(reqs, made, availRing, availIdx, h);
      TakenMoved(reqs, taken, h, reqs[h]);
      FreeChain(h);
      Leave(h);
    }

    method Leave(h: nat)
      requires h < |infoB| && h in reqs
      modifies `infoB, `reqs, `own, `headOf
      ensures infoB == old(infoB)[h := None] && reqs == old(reqs) - {h}
      ensures own == old(own) - {h, old(reqs)[h].d1, old(reqs)[h].d2} && headOf == old(headOf) - {old(reqs)[h].b}
    {
      infoB := infoB[h := None];
      own, headOf := own - {h, reqs[h].d1, reqs[h].d2}, headOf - {reqs[h].b};
      reqs := reqs - {h};
    }

    /** Any number of device steps; those not possible at the moment are skipped. */
    method Device(acts: seq<Act>)
      requires Valid()
      modifies `seenAvail, `usedIdx, `usedRing, `infoStatus, `taken, `reqs, `queue, `usedq, `completed
      ensures Valid() && Pending(reqs) == Pending(old(reqs)) && old(usedq) <= usedq && old(completed) <= completed
    {
      hide ChainsOk, BuffersOk, Lists, LogOk, RingHolds, MadeOk, TakenOk;
      var i := 0;
      while i < |acts|
        invariant 0 <= i <= |acts| && Valid() && Pending(reqs) == Pending(old(reqs)) && old(usedq) <= usedq
                  && old(completed) <= completed
      {
        ghost var was := reqs;
        if acts[i].Take? {
          if seenAvail != availIdx {
            var h := DeviceTake();
            PendingMoved(was, h, Working);
          }
        } else if acts[i].head in taken {
          TakenIs(reqs, taken, acts[i].head);
          PendingMoved(was, acts[i].head, Used);
          DeviceComplete(acts[i].head, acts[i].status);
        }
        i := i + 1;
      }
    }

    /** virtio_disk_intr, with acts[k] what the device does after its k-th round; false where it
        panics on a status. It ends with every completed request released. */
    method Intr(acts: seq<seq<Act>>) returns (ok: bool)
      requires Valid()
      modifies `seenUsed, `busy, `released, `seenAvail, `usedIdx, `usedRing, `infoStatus, `taken, `reqs, `queue, `usedq,
          `completed
      ensures Valid() && old(completed) <= completed && old(released) <= released
      ensures ok ==> usedq == [] && released == completed
      ensures !ok ==> usedq != [] && usedq[0] < NUM && infoStatus[usedq[0]] != 0
    {
      hide ChainsOk, BuffersOk, Lists, LogOk, RingHolds, MadeOk, TakenOk, Pending;
      var k := 0;
      while seenUsed != usedIdx
        invariant 0 <= k && Valid() && old(completed) <= completed && old(released) <= released
        decreases |Pending(reqs)|
      {
        ghost var was := reqs;
        RingNonEmpty(usedRing, seenUsed, usedIdx, usedq);
        ListHead(usedq, reqs, Used);
        HeadSmall(free, desc, infoB, reqs, own, usedq[0]);
        PendingMoved(was, usedq[0], Done);
        PendingHas(was, usedq[0]);
        ok := IntrOne();
        if !ok { return; }
        if k < |acts| { Device(acts[k]); }
        k := k + 1;
      }
      ListBounded(free, desc, infoB, reqs, own, usedq, Used);
      RingEmpty(usedRing, seenUsed, usedIdx, usedq);
      LogEnd(reqs, usedq, completed, released, nextid);
      ok := true;
    }
  }
}
