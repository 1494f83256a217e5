/** The machine of CacheModel carried out on the buffers, the list and the log header themselves. */
module CacheRuns {
  import opened Options
  import opened Blocks
  import opened CacheSpec
  import opened CacheModel
  import opened BufferCache

  /** The bytes that the fetches of a history returned. */
  function Fetches(es: seq<Event>): (ds: seq<Block>) {
    if es == [] then []
    else
      var ds := Fetches(es[..|es| - 1]);
      match es[|es| - 1]
      case Fetched(_, d) => ds + [d]
      case Stored(_, _) => ds
  }

  lemma FetchesLast(es: seq<Event>, e: Event)
    ensures Fetches(es + [e]) == Fetches(es) + if e.Fetched? then [e.data] else []
  {
    assert (es + [e])[..|es|] == es;
  }

  /** What a process knows of its use: the buffer bget returned, the block it asked for, where it is. */
  datatype Handle = Handle(b: Buf, key: Key, phase: Phase)

  class Kernel {
    const c: Bcache
    const room: nat                 // how many blocks the log holds
    var lh: seq<Key>                // log.lh.block[..log.lh.n]
    var tail: nat                   // progress of install_trans
    var handles: map<nat, Handle>   // the processes' uses of buffers
    var dirty: set<nat>             // uses that changed their buffer and have not yet logged or written it
    ghost var uses: map<nat, Use>   // the handles, by buffer number
    ghost var view: map<Key, Block>

    ghost function S(): (s: Sys)
      reads this, c
    {
      Sys(c.M(), lh, tail, room, uses, dirty)
    }

    ghost predicate Tied()
      reads this`uses, this`handles
    {
      && (forall h :: h in uses <==> h in handles)
      && forall h :: h in uses ==>
           uses[h].i < |c.bufs| && handles[h] == Handle(c.bufs[uses[h].i], uses[h].key, uses[h].phase)
    }

    ghost predicate Valid()
      reads this, c, c.nodes
    {
      c.Valid() && Tied() && Inv(S(), view)
    }

    constructor (contents: map<Key, Block>, room: nat)
      ensures Valid() && S() == Boot(contents, room) && view == contents
      ensures fresh(c) && fresh(c.nodes)
    {
      var cache := new Bcache(contents);
      c, this.room, lh, tail, handles, dirty := cache, room, [], 0, map[], {};
      uses, view := map[], contents;
      new;
      BootIsOk(contents, room);
    }

    /** Buffer i as the machine sees it. */
    lemma Seen(i: nat)
      requires c.Valid() && i < NBUF
      ensures |c.bufs| == NBUF && c.bufs[i] in c.nodes && |c.M().lines| == NBUF
      ensures var b := c.bufs[i]; LineAt(c.M(), i) == Line(b.key, b.valid, b.data, b.locked, b.refcnt)
    {
    }

    /** The buffer of a use, as its process sees it. */
    lemma SeenBy(h: nat)
      requires Valid() && h in uses
      ensures h in handles && uses[h].i < NBUF == |c.bufs|
              && handles[h].b == c.bufs[uses[h].i] && handles[h].b in c.nodes
      ensures handles[h].key == uses[h].key == handles[h].b.key && handles[h].phase == uses[h].phase
      ensures uses[h].key in c.disk
      ensures var b := handles[h].b; Mine(S(), h) == Line(b.key, b.valid, b.data, b.locked, b.refcnt)
    {
      hide Inv, FirstOf, Choose, LastUnused;
      OfUse(S(), view, h);
      Seen(uses[h].i);
    }

    lemma Known(h: nat)
      requires Tied()
      ensures h in handles <==> h in uses
    {
    }

    /** acquiresleep returns once the lock is free. */
    method TryAcquire(h: nat)
      requires Valid()
      modifies this, c, c.nodes
      ensures c.Valid() && Tied() && S() == Next(old(S()), Acquire(h))
    {
      hide Inv, FirstOf, Choose, LastUnused, c.Valid;
      Known(h);
      if h !in handles { return; }
      SeenBy(h);
      var u := handles[h];
      if u.phase == Waiting && !u.b.locked {
        c.Lock(u.b, uses[h].i);
        handles := handles[h := u.(phase := Holding)];
        uses := Turned(uses, h, Holding);
      }
    }

    method TryRead(h: nat) returns (data: Option<Block>)
      requires Valid()
      modifies this, c, c.nodes
      ensures c.Valid() && Tied() && S() == Next(old(S()), Read(h))
      ensures data == Returned(Recorded(old(S()), Read(h)))
    {
      hide Inv, FirstOf, Choose, LastUnused, c.Valid, Tied;
      data := None;
      Known(h);
      if h !in handles { return; }
      SeenBy(h);
      var u := handles[h];
      if u.phase == Holding {
        c.Fill(u.b, uses[h].i);
        data := Some(u.b.data);
      }
    }

    method TryChange(h: nat, d: Block)
      requires Valid()
      modifies this, c, c.nodes
      ensures c.Valid() && Tied() && S() == Next(old(S()), Change(h, d))
    {
      hide Inv, FirstOf, Choose, LastUnused, c.Valid, Tied;
      Known(h);
      if h !in handles { return; }
      SeenBy(h);
      var u := handles[h];
      if u.phase == Holding && u.b.valid {
        c.SetData(u.b, d, uses[h].i);
        dirty := dirty + {h};
      }
    }

    method TryWrite(h: nat)
      requires Valid()
      modifies this, c, c.nodes
      ensures c.Valid() && Tied() && S() == Next(old(S()), Write(h))
    {
      hide Inv, FirstOf, Choose, LastUnused, c.Valid, Tied;
      Known(h);
      if h !in handles { return; }
      SeenBy(h);
      var u := handles[h];
      if u.phase == Holding && u.b.valid {
        c.Bwrite(u.b, uses[h].i);
        dirty := dirty - {h};
      }
    }

    /** The scan of log_write: the block's place in the header, or its end. */
    method Absorb(k: Key) returns (j: nat)
      ensures j <= |lh| && (j == |lh| <==> k !in lh)
    {
      j := 0;
      while j < |lh|
        invariant 0 <= j <= |lh| && k !in lh[..j]
      {
        if lh[j] == k { return; }
        j := j + 1;
      }
      assert lh[..|lh|] == lh;
    }

    /** log_write by the holder of the buffer: absorbed, or one more block in the log, and pinned. */
    method TryLogWrite(h: nat)
      requires Valid()
      modifies this, c, c.nodes
      ensures c.Valid() && Tied() && S() == Next(old(S()), LogWrite(h))
    {
      hide Inv, FirstOf, Choose, LastUnused, c.Valid, Tied;
      Known(h);
      if h !in handles { return; }
      SeenBy(h);
      var u := handles[h];
      if u.phase == Holding && u.b.valid && tail == 0 && |lh| < room {
        var j := Absorb(u.b.key);
        if j == |lh| {
          lh := lh + [u.b.key];
          c.Bpin(u.b, uses[h].i);
        }
        dirty := dirty - {h};
      }
    }

    /** memmove, bwrite and bunpin of install_trans on the buffer of a logged block. */
    method InstallOne(b: Buf, d: Block, ghost i: nat)
      requires c.Valid() && i < NBUF && |c.bufs| == NBUF && c.bufs[i] == b
      modifies c, c.nodes
      ensures c.Valid() && c.M() == InstalledLine(old(c.M()), i, d)
    {
      hide c.Valid;
      Seen(i);
      ghost var m := c.M();
      c.SetData(b, d, i);
      c.Bwrite(b, i);
      c.Bunpin(b, i);
      InstallOrder(m, i, d);
    }

    /** One round of install_trans: the logged bytes go into the buffer and to the disk; the pin goes. */
    method TryInstall(h: nat, d: Block)
      requires Valid()
      modifies this, c, c.nodes
      ensures c.Valid() && Tied() && S() == Next(old(S()), Install(h, d))
    {
      hide Inv, FirstOf, Choose, LastUnused, c.Valid, Tied;
      Known(h);
      if h !in handles { return; }
      SeenBy(h);
      var u := handles[h];
      if u.phase == Holding && u.b.valid && tail < |lh| && u.key == lh[tail] {
        InstallOne(u.b, d, uses[h].i);
        tail := tail + 1;
        dirty := dirty - {h};
      }
    }

    /** The first half of brelse, by a holder that owes nothing. */
    method TryRelease(h: nat)
      requires Valid()
      modifies this, c, c.nodes
      ensures c.Valid() && Tied() && S() == Next(old(S()), Release(h))
    {
      hide Inv, FirstOf, Choose, LastUnused, Pinned, c.Valid;
      Known(h);
      if h !in handles { return; }
      SeenBy(h);
      var u := handles[h];
      if u.phase == Holding && h !in dirty {
        c.Unlock(u.b, uses[h].i);
        handles := handles[h := u.(phase := Leaving)];
        uses := Turned(uses, h, Leaving);
      }
    }

    /** The second half. */
    method TryDrop(h: nat)
      requires Valid()
      modifies this, c, c.nodes
      ensures c.Valid() && Tied() && S() == Next(old(S()), Drop(h))
    {
      hide Inv, FirstOf, Choose, LastUnused, Pinned, Unref, c.Valid;
      Known(h);
      if h !in handles { return; }
      SeenBy(h);
      var u := handles[h];
      if u.phase == Leaving {
        c.Unref(u.b, uses[h].i);
        handles := handles - {h};
        uses := uses - {h};
      }
    }

    method TryGet(h: nat, k: Key)
      requires Valid()
      modifies this, c, c.nodes
      ensures c.Valid() && Tied() && S() == Next(old(S()), Get(h, k))
    {
      hide Inv, FirstOf, Choose, LastUnused, Bget, c.Valid;
      Seen(0);
      if h !in handles && k.dev != 0 && k in c.disk {
        var b;
        ghost var n;
        b, n := c.Bget(k);
        if b != null {
          handles := handles[h := Handle(b, k, Waiting)];
          uses := uses[h := Use(n, k, Waiting)];
        }
      }
    }

    method TryInstalled()
      requires Valid()
      modifies this
      ensures c.Valid() && Tied() && S() == Next(old(S()), Installed)
    {
      hide Inv;
      if tail == |lh| && |lh| > 0 {
        lh, tail := [], 0;
      }
    }

    method Carry(a: Action) returns (data: Option<Block>)
      requires Valid()
      modifies this, c, c.nodes
      ensures c.Valid() && Tied() && S() == Next(old(S()), a) && data == Returned(Recorded(old(S()), a))
    {
      hide Inv, Do, c.Valid, Filled, Choose, Tied, Next;
      data := None;
      match a {
        case Get(h, k) => TryGet(h, k);
        case Acquire(h) => TryAcquire(h);
        case Read(h) => data := TryRead(h);
        case Change(h, d) => TryChange(h, d);
        case Write(h) => TryWrite(h);
        case LogWrite(h) => TryLogWrite(h);
        case Install(h, d) => TryInstall(h, d);
        case Installed => TryInstalled();
        case Release(h) => TryRelease(h);
        case Drop(h) => TryDrop(h);
      }
    }

    /** One action, as the machine takes it; a read returns what the machine records. */
    method Perform(a: Action) returns (data: Option<Block>)
      requires Valid()
      modifies this, c, c.nodes
      ensures Valid() && S() == Next(old(S()), a) && data == Returned(Recorded(old(S()), a))
    {
      hide Inv, Do, Enabled, c.Valid, Recorded, Tied;
      ghost var s, v := S(), view;
      data := Carry(a);
      view := if Enabled(s, a) then ViewAfter(s, v, a) else v;
      if Enabled(s, a) { StepKeeps(s, v, a); }
    }
  }

  function Returned(es: seq<Event>): (d: Option<Block>) {
    if |es| == 1 && es[0].Fetched? then Some(es[0].data) else None
  }

  function InstalledLine(c: Cache, i: nat, d: Block): (r: Cache) {
    var l := LineAt(c, i);
    Bwrite(SetLine(c, i, l.(data := d, refcnt := l.refcnt - 1)), i)
  }

  /** The disk write does not care whether the pin is dropped before or after it. */
  lemma InstallOrder(c: Cache, i: nat, d: Block)
    requires i < |c.lines|
    ensures var c1 := SetLine(c, i, LineAt(c, i).(data := d));
            var c2 := Bwrite(c1, i);
            SetLine(c2, i, LineAt(c2, i).(refcnt := LineAt(c2, i).refcnt - 1)) == InstalledLine(c, i, d)
  {
  }

  lemma {:induction false} HistoryStep(s: Sys, actions: seq<Action>, n: nat)
    requires n < |actions|
    ensures RunFrom(s, actions[..n + 1]) == Next(RunFrom(s, actions[..n]), actions[n])
    ensures History(s, actions[..n + 1]) == History(s, actions[..n]) + Recorded(RunFrom(s, actions[..n]), actions[n])
  {
    hide Recorded, Next;
    assert actions[..n + 1][..n] == actions[..n];
  }

  lemma FetchesMore(es: seq<Event>, s: Sys, a: Action)
    ensures Fetches(es + Recorded(s, a))
        == Fetches(es) + match Returned(Recorded(s, a)) case Some(d) => [d] case None => []
  {
    hide Enabled, Filled, Fetches;
    if Recorded(s, a) == [] { assert es + [] == es; } else { FetchesLast(es, Recorded(s, a)[0]); }
  }

  /** In every run from power-on, the reads return exactly what the machine says, which is what a plain
      map from blocks to bytes holds for the blocks that were asked for. */
  method Run(contents: map<Key, Block>, room: nat, actions: seq<Action>) returns (got: seq<Block>)
    ensures got == Fetches(History(Boot(contents, room), actions))
    ensures Consistent(contents, History(Boot(contents, room), actions))
  {
    hide Fetches, History, RunFrom, Next, Boot, Consistent;
    var k := new Kernel(contents, room);
    got := [];
    ghost var s := Boot(contents, room);
    Empty(s, actions);
    for i := 0 to |actions|
      invariant fresh(k) && fresh(k.c) && fresh(k.c.nodes) && k.Valid()
      invariant k.S() == RunFrom(s, actions[..i]) && got == Fetches(History(s, actions[..i]))
    {
      HistoryStep(s, actions, i);
      FetchesMore(History(s, actions[..i]), RunFrom(s, actions[..i]), actions[i]);
      var d := k.Perform(actions[i]);
      match d {
        case Some(b) => got := got + [b];
        case None => assert got + [] == got;
      }
    }
    assert actions[..|actions|] == actions;
    CacheIsPlainMap(contents, room, actions);
  }

  lemma Empty(s: Sys, actions: seq<Action>)
    ensures RunFrom(s, actions[..0]) == s && Fetches(History(s, actions[..0])) == []
  {
  }
}
