/** Whole runs of the driver of kernel/virtio_disk.c and the device: on descriptors and rings they do exactly
    what VirtioSpec says they do to requests. */
module VirtioRuns {
  import opened Options
  import opened Seqs
  import opened VirtioSpec
  import opened Virtio

  // ------------------------------------------------------------ room for a request

  /** One chain leaves three of eight descriptors free. */
  lemma OneLeavesThree(free: seq<bool>, h: nat, d1: nat, d2: nat)
    requires |free| == NUM && forall i: nat :: i < NUM && !free[i] ==> i == h || i == d1 || i == d2
    ensures HasThree(free)
  {
    var f := [free[0], free[1], free[2], free[3], free[4], free[5]];
  }

  lemma Apart(u: seq<nat>, v: seq<nat>)
    requires Distinct(u) && Distinct(v) && forall i, j :: 0 <= i < |u| && 0 <= j < |v| ==> u[i] != v[j]
    ensures Distinct(u + v)
  {
  }

  /** The three descriptors of a chain. */
  function ChainOf(h: nat, r: Req): (u: seq<nat>)
    ensures |u| == 3
  {
    [h, r.d1, r.d2]
  }

  lemma ChainOfIs(free: seq<bool>, desc: seq<Desc>, infoB: seq<Option<nat>>, reqs: map<nat, Req>, own: map<nat, nat>,
                  h: nat, i: nat)
    requires ChainsOk(free, desc, infoB, reqs, own) && h in reqs && i < 3
    ensures |free| == NUM && Distinct(ChainOf(h, reqs[h]))
    ensures var x := ChainOf(h, reqs[h])[i]; x < NUM && x in own && own[x] == h && !free[x]
  {
    assert ChainOk(h, reqs[h], desc, infoB, own);
    hide InChain;
  }

  lemma Nine(u: seq<nat>, v: seq<nat>, w: seq<nat>)
    requires |u| == |v| == |w| == 3 && Distinct(u) && Distinct(v) && Distinct(w)
    requires forall i :: 0 <= i < 3 ==> u[i] < NUM && v[i] < NUM && w[i] < NUM
    ensures exists i, j :: 0 <= i < 3 && 0 <= j < 3 && (u[i] == v[j] || u[i] == w[j] || v[i] == w[j])
  {
    if forall i, j :: 0 <= i < 3 && 0 <= j < 3 ==> u[i] != v[j] && u[i] != w[j] && v[i] != w[j] {
      Apart(u, v);
      Apart(u + v, w);
      Pigeonhole(u + v + w, NUM);
    }
  }

  /** Two chains do not. */
  lemma TwoLeaveTwo(free: seq<bool>, desc: seq<Desc>, infoB: seq<Option<nat>>, reqs: map<nat, Req>, own: map<nat, nat>,
                    h: nat, g: nat)
    requires ChainsOk(free, desc, infoB, reqs, own) && h in reqs && g in reqs && h != g
    ensures |free| == NUM && !HasThree(free)
  {
    hide ChainsOk, ChainOf, Distinct, HasThree;
    ChainOfIs(free, desc, infoB, reqs, own, h, 0);
    if HasThree(free) {
      var u: seq<nat>, v: seq<nat>, w: seq<nat> := ChainOf(h, reqs[h]), ChainOf(g, reqs[g]), ThreeOf(free);
      forall i: nat | i < 3
        ensures u[i] < NUM && u[i] in own && own[u[i]] == h && !free[u[i]]
        ensures v[i] < NUM && v[i] in own && own[v[i]] == g && !free[v[i]]
      {
        ChainOfIs(free, desc, infoB, reqs, own, h, i);
        ChainOfIs(free, desc, infoB, reqs, own, g, i);
      }
      ChainOfIs(free, desc, infoB, reqs, own, g, 0);
      Nine(u, v, w);
    }
  }

  ghost function ThreeOf(free: seq<bool>): (w: seq<nat>)
    requires |free| == NUM && HasThree(free)
    ensures |w| == 3 && Distinct(w) && forall i :: 0 <= i < 3 ==> w[i] < NUM && free[w[i]]
  {
    var a: nat, b: nat, c: nat :|
      a < NUM && b < NUM && c < NUM && a != b && a != c && b != c && free[a] && free[b] && free[c];
    [a, b, c]
  }

  // ------------------------------------------------------------ the requests on descriptors

  function IdAt(reqs: map<nat, Req>, h: nat): (x: nat) { if h in reqs then reqs[h].id else 0 }

  function PhaseAt(reqs: map<nat, Req>, h: nat): (p: Phase) { if h in reqs then reqs[h].phase else Done }

  function StatusAt(status: seq<nat>, h: nat): (n: nat) { if h < |status| then status[h] else 0 }

  /** A list of chains as a list of requests. */
  ghost function IdsOf(q: seq<nat>, reqs: map<nat, Req>): (s: seq<nat>)
    ensures |s| == |q| && forall k :: 0 <= k < |q| ==> s[k] == IdAt(reqs, q[k])
  {
    seq(|q|, k requires 0 <= k < |q| => IdAt(reqs, q[k]))
  }

  ghost function PhasesOf(heads: map<nat, nat>, reqs: map<nat, Req>): (m: map<nat, Phase>) {
    map x | x in heads :: PhaseAt(reqs, heads[x])
  }

  ghost function StatusOf(heads: map<nat, nat>, status: seq<nat>): (m: map<nat, nat>) {
    map x | x in heads :: StatusAt(status, heads[x])
  }

  /** `heads` and `bufs` are what the waiting processes know of their requests: the first descriptor of the
      chain, and the buffer. */
  ghost predicate HeadsOk(heads: map<nat, nat>, bufs: map<nat, nat>, reqs: map<nat, Req>) {
    && heads.Keys == bufs.Keys
    && (forall x :: x in heads ==> heads[x] in reqs && reqs[heads[x]].id == x && reqs[heads[x]].b == bufs[x])
    && (forall h :: h in reqs ==> reqs[h].id in heads && heads[reqs[h].id] == h)
  }

  lemma HeadOf(heads: map<nat, nat>, bufs: map<nat, nat>, reqs: map<nat, Req>, h: nat)
    requires HeadsOk(heads, bufs, reqs) && h in reqs
    ensures reqs[h].id in heads && heads[reqs[h].id] == h && reqs[h].id in bufs && bufs[reqs[h].id] == reqs[h].b
  {
  }

  lemma RequestOf(heads: map<nat, nat>, bufs: map<nat, nat>, reqs: map<nat, Req>, x: nat)
    requires HeadsOk(heads, bufs, reqs)
    ensures x in heads <==> x in bufs
    ensures x in heads ==> heads[x] in reqs && reqs[heads[x]].id == x && reqs[heads[x]].b == bufs[x]
  {
  }

  /** A request moves on. */
  lemma ViewMoved(heads: map<nat, nat>, bufs: map<nat, nat>, reqs: map<nat, Req>, h: nat, ph: Phase,
                  reqs': map<nat, Req>)
    requires HeadsOk(heads, bufs, reqs) && h in reqs && reqs' == reqs[h := reqs[h].(phase := ph)]
    ensures HeadsOk(heads, bufs, reqs') && PhasesOf(heads, reqs') == PhasesOf(heads, reqs)[reqs[h].id := ph]
    ensures forall q :: IdsOf(q, reqs') == IdsOf(q, reqs)
  {
    forall q ensures IdsOf(q, reqs') == IdsOf(q, reqs) {}
  }

  /** The device sets the status of a request. */
  lemma ViewSet(heads: map<nat, nat>, bufs: map<nat, nat>, reqs: map<nat, Req>, status: seq<nat>, h: nat, n: nat)
    requires HeadsOk(heads, bufs, reqs) && h in reqs && h < |status|
    ensures StatusOf(heads, status[h := n]) == StatusOf(heads, status)[reqs[h].id := n]
  {
  }

  /** A new request. */
  lemma ViewNew(heads: map<nat, nat>, bufs: map<nat, nat>, reqs: map<nat, Req>, status: seq<nat>, h: nat, r: Req)
    requires HeadsOk(heads, bufs, reqs) && h !in reqs && r.id !in heads && h < |status|
    ensures HeadsOk(heads[r.id := h], bufs[r.id := r.b], reqs[h := r])
    ensures PhasesOf(heads[r.id := h], reqs[h := r]) == PhasesOf(heads, reqs)[r.id := r.phase]
    ensures StatusOf(heads[r.id := h], status[h := PENDING]) == StatusOf(heads, status)[r.id := PENDING]
  {
  }

  lemma IdsNew(reqs: map<nat, Req>, h: nat, r: Req, q: seq<nat>)
    requires h !in q
    ensures IdsOf(q, reqs[h := r]) == IdsOf(q, reqs) && IdsOf(q, reqs - {h}) == IdsOf(q, reqs)
  {
  }

  /** A request is over. */
  lemma ViewOver(heads: map<nat, nat>, bufs: map<nat, nat>, reqs: map<nat, Req>, status: seq<nat>, x: nat)
    requires HeadsOk(heads, bufs, reqs) && x in heads
    ensures HeadsOk(heads - {x}, bufs - {x}, reqs - {heads[x]})
    ensures PhasesOf(heads - {x}, reqs - {heads[x]}) == PhasesOf(heads, reqs) - {x}
    ensures StatusOf(heads - {x}, status) == StatusOf(heads, status) - {x}
  {
  }

  lemma IdsPopped(reqs: map<nat, Req>, q: seq<nat>)
    requires q != []
    ensures IdsOf(q[1..], reqs) == IdsOf(q, reqs)[1..] && IdsOf(q, reqs)[0] == IdAt(reqs, q[0])
  {
  }

  lemma IdsPushed(reqs: map<nat, Req>, q: seq<nat>, h: nat)
    ensures IdsOf(q + [h], reqs) == IdsOf(q, reqs) + [IdAt(reqs, h)]
  {
  }

  /** Three descriptors are free exactly when fewer than two requests are not over. */
  lemma RoomExactlyWhen(free: seq<bool>, desc: seq<Desc>, infoB: seq<Option<nat>>, reqs: map<nat, Req>,
                        own: map<nat, nat>, heads: map<nat, nat>, bufs: map<nat, nat>)
    requires ChainsOk(free, desc, infoB, reqs, own) && HeadsOk(heads, bufs, reqs)
    ensures |free| == NUM && (HasThree(free) <==> |bufs| < ROOM)
  {
    hide ChainOk, HasThree;
    if |bufs| >= ROOM {
      var x, y := TwoKeys(bufs);
      TwoLeaveTwo(free, desc, infoB, reqs, own, heads[x], heads[y]);
    } else if x :| x in bufs {
      assert forall y :: y in bufs ==> y == x by { OneKey(bufs, x); }
      var r := reqs[heads[x]];
      assert forall h :: h in reqs ==> h == heads[x];
      OneLeavesThree(free, heads[x], r.d1, r.d2);
    } else {
      assert reqs == map[];
      OneLeavesThree(free, 0, 0, 0);
    }
  }

  lemma TwoKeys(m: map<nat, nat>) returns (x: nat, y: nat)
    requires |m| >= 2
    ensures x in m && y in m && x != y
  {
    x :| x in m;
    assert |m.Keys - {x}| >= 1;
    y :| y in m.Keys - {x};
  }

  lemma OneKey(m: map<nat, nat>, x: nat)
    requires |m| < 2 && x in m
    ensures forall y :: y in m ==> y == x
  {
    var s := m.Keys - {x};
    assert |s| == |m.Keys| - 1 == 0;
    assert forall y :: y in m ==> y == x || y in s;
  }

  /** A buffer that is in a request has a process that waits for it. */
  lemma Asked(reqs: map<nat, Req>, headOf: map<nat, nat>, busy: set<nat>, heads: map<nat, nat>, bufs: map<nat, nat>,
              b: nat)
    requires BuffersOk(reqs, headOf, busy) && HeadsOk(heads, bufs, reqs)
    ensures b in headOf ==> b in bufs.Values
  {
    if b in headOf { assert bufs[reqs[headOf[b]].id] == b; }
  }

  lemma NotMade(reqs: map<nat, Req>, usedq: seq<nat>, completed: seq<nat>, released: seq<nat>, nextid: nat,
                heads: map<nat, nat>, bufs: map<nat, nat>)
    requires LogOk(reqs, usedq, completed, released, nextid) && HeadsOk(heads, bufs, reqs)
    ensures nextid !in heads
  {
  }

  /** A ring is empty when its two indices are equal, and only then. */
  lemma RingIs(free: seq<bool>, desc: seq<Desc>, infoB: seq<Option<nat>>, reqs: map<nat, Req>, own: map<nat, nat>,
               ring: seq<nat>, first: nat, idx: nat, q: seq<nat>, phase: Phase)
    requires ChainsOk(free, desc, infoB, reqs, own) && Lists(q, reqs, phase) && RingHolds(ring, first, idx, q)
    ensures first == idx <==> q == []
    ensures q != [] ==> q[0] in reqs && reqs[q[0]].phase == phase
  {
    hide ChainsOk, Lists, RingHolds;
    ListBounded(free, desc, infoB, reqs, own, q, phase);
    if first == idx { RingEmpty(ring, first, idx, q); } else { RingNonEmpty(ring, first, idx, q); }
    if q != [] {
      RingPop(ring, first, idx, q);
      ListHead(q, reqs, phase);
    }
  }

  lemma TakenWhen(reqs: map<nat, Req>, taken: set<nat>, h: nat)
    requires TakenOk(reqs, taken)
    ensures h in taken <==> h in reqs && reqs[h].phase == Working
  {
  }

  lemma MadeIs(reqs: map<nat, Req>, made: Option<nat>, ring: seq<nat>, idx: nat)
    requires MadeOk(reqs, made, ring, idx)
    ensures made.Some? ==> made.value in reqs && reqs[made.value].phase == Made
  {
  }

  lemma PhaseIs(heads: map<nat, nat>, reqs: map<nat, Req>, x: nat)
    ensures x in PhasesOf(heads, reqs) <==> x in heads
    ensures x in heads ==> PhasesOf(heads, reqs)[x] == PhaseAt(reqs, heads[x])
  {
  }

  lemma StatusIs(heads: map<nat, nat>, status: seq<nat>, x: nat)
    ensures x in StatusOf(heads, status) <==> x in heads
    ensures x in heads ==> StatusOf(heads, status)[x] == StatusAt(status, heads[x])
  {
  }

  /** The driver, the device and the processes that wait for their requests. */
  class Driver {
    const d: Disk
    var made: nat                 // how many requests there have been
    var heads: map<nat, nat>
    var bufs: map<nat, nat>
    var posting: Option<nat>      // the request that is in its ring slot and not published
    var panicked: bool
    ghost var over: seq<nat>

    ghost function View(): (q: Queue)
      reads this, d
    {
      Queue(made, posting, IdsOf(d.queue, d.reqs), IdsOf(d.usedq, d.reqs), PhasesOf(heads, d.reqs), bufs,
            StatusOf(heads, d.infoStatus), d.completed, d.released, over, panicked)
    }

    ghost predicate Valid()
      reads this, d
    {
      && d.Valid() && made == d.nextid && HeadsOk(heads, bufs, d.reqs) && (posting.Some? <==> d.made.Some?)
      && (posting.Some? ==> posting.value in heads && heads[posting.value] == d.made.value)
    }

    constructor ()
      ensures Valid() && fresh(d) && View() == Idle()
    {
      d := new Disk();
      made, heads, bufs, posting, panicked, over := 0, map[], map[], None, false, [];
      new;
      assert PhasesOf(heads, d.reqs) == map[] && StatusOf(heads, d.infoStatus) == map[];
    }

    /** One attempt at three descriptors. */
    method Attempt(b: nat, write: bool) returns (ok: bool)
      requires Valid() && posting.None? && b !in d.headOf && made !in heads && |d.free| == NUM
      modifies this, d
      ensures Valid() && (ok <==> old(HasThree(d.free)))
      ensures !ok ==> View() == old(View())
      ensures ok ==>
                var q := old(View());
                View() == Queue(q.made + 1, Some(q.made), q.queued, q.used, q.phase[q.made := Made], q.buf[q.made := b],
                                q.status[q.made := PENDING], q.completed, q.released, q.over, q.panicked)
    {
      hide ChainsOk, BuffersOk, LogOk, Lists, RingHolds, MadeOk, TakenOk, HeadsOk, HasThree, PhasesOf, StatusOf, IdsOf;
      ghost var reqs, status := d.reqs, d.infoStatus;
      var h;
      ok, h := d.Make(b, write);
      if ok {
        ListMisses(d.queue, d.reqs, Queued, h);
        ListMisses(d.usedq, d.reqs, Used, h);
        ViewNew(heads, bufs, reqs, status, h, d.reqs[h]);
        IdsNew(reqs, h, d.reqs[h], d.queue);
        IdsNew(reqs, h, d.reqs[h], d.usedq);
        hide d.Valid;
        Note(h, b);
      }
    }

    method Note(h: nat, b: nat)
      modifies `heads, `bufs, `posting, `made
      ensures heads == old(heads)[old(made) := h] && bufs == old(bufs)[old(made) := b]
      ensures posting == Some(old(made)) && made == old(made) + 1
    {
      heads, bufs, posting, made := heads[made := h], bufs[made := b], Some(made), made + 1;
    }

    /** virtio_disk_rw up to the store in the avail ring, by a process that holds the buffer's sleep lock. */
    method Ask(b: nat, write: bool)
      requires Valid() && !panicked
      modifies this, d
      ensures Valid() && View() == VirtioSpec.Next(old(View()), Request(b, write))
    {
      hide ChainsOk, BuffersOk, LogOk, Lists, RingHolds, MadeOk, TakenOk, HeadsOk, HasThree, PhasesOf, StatusOf, IdsOf;
      Asked(d.reqs, d.headOf, d.busy, heads, bufs, b);
      RoomExactlyWhen(d.free, d.desc, d.infoB, d.reqs, d.own, heads, bufs);
      NotMade(d.reqs, d.usedq, d.completed, d.released, d.nextid, heads, bufs);
      hide d.Valid;
      if posting.Some? || b in bufs.Values { return; }
      var ok := Attempt(b, write);
    }

    /** disk.avail->idx += 1, by the process that asked. */
    method Send()
      requires Valid() && !panicked
      modifies this, d
      ensures Valid() && View() == VirtioSpec.Next(old(View()), Post)
    {
      hide ChainsOk, BuffersOk, LogOk, Lists, RingHolds, MadeOk, TakenOk, HeadsOk, PhasesOf, StatusOf, IdsOf;
      if posting.None? { return; }
      ghost var reqs, h, queue := d.reqs, d.made.value, d.queue;
      RequestOf(heads, bufs, reqs, posting.value);
      d.Publish();
      ViewMoved(heads, bufs, reqs, h, Queued, d.reqs);
      IdsPushed(d.reqs, queue, h);
      posting := None;
    }

    /** The device takes the next request. */
    method TakeOne()
      requires Valid() && !panicked
      modifies this, d
      ensures Valid() && View() == VirtioSpec.Next(old(View()), Action.Take)
    {
      hide ChainsOk, BuffersOk, LogOk, Lists, RingHolds, MadeOk, TakenOk, HeadsOk, PhasesOf, StatusOf, IdsOf;
      RingIs(d.free, d.desc, d.infoB, d.reqs, d.own, d.availRing, d.seenAvail, d.availIdx, d.queue, Queued);
      if d.seenAvail == d.availIdx { return; }
      ghost var reqs, queue := d.reqs, d.queue;
      var h := d.DeviceTake();
      ViewMoved(heads, bufs, reqs, h, Working, d.reqs);
      IdsPopped(reqs, queue);
    }

    /** The device completes a request that it has taken. */
    method CompleteOne(x: nat, status: nat)
      requires Valid() && !panicked
      modifies this, d
      ensures Valid() && View() == VirtioSpec.Next(old(View()), Action.Complete(x, status))
    {
      hide ChainsOk, BuffersOk, LogOk, Lists, RingHolds, MadeOk, TakenOk, HeadsOk, PhasesOf, StatusOf, IdsOf;
      RequestOf(heads, bufs, d.reqs, x);
      PhaseIs(heads, d.reqs, x);
      if x !in heads { return; }
      TakenWhen(d.reqs, d.taken, heads[x]);
      if heads[x] !in d.taken { return; }
      ghost var reqs, usedq, old' := d.reqs, d.usedq, d.infoStatus;
      d.DeviceComplete(heads[x], status);
      ViewMoved(heads, bufs, reqs, heads[x], Used, d.reqs);
      ViewSet(heads, bufs, reqs, old', heads[x], status);
      IdsPushed(d.reqs, usedq, heads[x]);
    }

    /** One round of the loop of virtio_disk_intr. */
    method Handle()
      requires Valid() && !panicked
      modifies this, d
      ensures Valid() && View() == VirtioSpec.Next(old(View()), Interrupt)
    {
      hide ChainsOk, BuffersOk, LogOk, Lists, RingHolds, MadeOk, TakenOk, HeadsOk, PhasesOf, StatusOf, IdsOf;
      RingIs(d.free, d.desc, d.infoB, d.reqs, d.own, d.usedRing, d.seenUsed, d.usedIdx, d.usedq, Used);
      if d.seenUsed == d.usedIdx { return; }
      ghost var reqs, usedq := d.reqs, d.usedq;
      HeadOf(heads, bufs, reqs, usedq[0]);
      HeadSmall(d.free, d.desc, d.infoB, reqs, d.own, usedq[0]);
      StatusIs(heads, d.infoStatus, reqs[usedq[0]].id);
      IdsPopped(reqs, usedq);
      var ok := d.IntrOne();
      if ok { ViewMoved(heads, bufs, reqs, usedq[0], Done, d.reqs); } else { panicked := true; }
    }

    /** The end of virtio_disk_rw, for a waiter whose buffer is no longer the disk's. */
    method End(x: nat)
      requires Valid() && !panicked
      modifies this, d
      ensures Valid() && View() == VirtioSpec.Next(old(View()), Collect(x))
    {
      hide ChainsOk, BuffersOk, LogOk, Lists, RingHolds, MadeOk, TakenOk, HeadsOk, PhasesOf, StatusOf, IdsOf;
      RequestOf(heads, bufs, d.reqs, x);
      PhaseIs(heads, d.reqs, x);
      if x !in heads { return; }
      BufferBusy(d.reqs, d.headOf, d.busy, heads[x]);
      if bufs[x] in d.busy { return; }
      hide d.Valid;
      Finished(x);
    }

    method Finished(x: nat)
      requires Valid() && x in heads && heads[x] in d.reqs && d.reqs[heads[x]].phase == Done
      requires d.reqs[heads[x]].b !in d.busy
      modifies this, d
      ensures Valid()
      ensures var q := old(View());
              View() == q.(phase := q.phase - {x}, buf := q.buf - {x}, status := q.status - {x}, over := q.over + [x])
    {
      hide ChainsOk, BuffersOk, LogOk, Lists, RingHolds, MadeOk, TakenOk, HeadsOk, PhasesOf, StatusOf, IdsOf;
      ghost var reqs, h := d.reqs, heads[x];
      ListMisses(d.queue, reqs, Queued, h);
      ListMisses(d.usedq, reqs, Used, h);
      MadeIs(reqs, d.made, d.availRing, d.availIdx);
      IdsNew(reqs, h, reqs[h], d.queue);
      IdsNew(reqs, h, reqs[h], d.usedq);
      ViewOver(heads, bufs, reqs, d.infoStatus, x);
      d.Finish(heads[x]);
      hide d.Valid;
      Forget(x);
    }

    method Forget(x: nat)
      modifies `heads, `bufs, `over
      ensures heads == old(heads) - {x} && bufs == old(bufs) - {x} && over == old(over) + [x]
    {
      heads, bufs, over := heads - {x}, bufs - {x}, over + [x];
    }

    /** One action, as VirtioSpec takes it. */
    method Perform(a: Action)
      requires Valid()
      modifies this, d
      ensures Valid() && View() == VirtioSpec.Next(old(View()), a)
    {
      hide ChainsOk, BuffersOk, LogOk, Lists, RingHolds, MadeOk, TakenOk, HeadsOk, PhasesOf, StatusOf, IdsOf;
      if panicked { return; }
      hide VirtioSpec.Next;
      match a
      case Request(b, write) => Ask(b, write);
      case Post => Send();
      case Take => TakeOne();
      case Complete(x, status) => CompleteOne(x, status);
      case Interrupt => Handle();
      case Collect(x) => End(x);
    }
  }

  /** Every run from an idle disk: the driver and the device, on descriptors and 16-bit rings, do to the
      requests exactly what VirtioSpec says, whatever the actions. */
  method Run(actions: seq<Action>) returns (v: Driver)
    ensures fresh(v) && fresh(v.d) && v.Valid() && v.View() == RunFrom(Idle(), actions)
  {
    hide VirtioSpec.Next, Driver.Valid;
    v := new Driver();
    for i := 0 to |actions|
      invariant v.Valid() && fresh(v) && fresh(v.d) && v.View() == RunFrom(Idle(), actions[..i])
    {
      v.Perform(actions[i]);
      assert actions[..i + 1][..i] == actions[..i];
    }
    assert actions[..|actions|] == actions;
  }
}
