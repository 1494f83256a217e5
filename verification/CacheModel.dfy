/** The buffer cache of kernel/bio.c and the pins of kernel/log.c as a machine: any number of processes,
    one critical section, one sleep lock taken or given, or one access to a locked buffer at a time. A
    process that changes a buffer logs or writes it before it releases it; nothing else is asked of
    the callers. */
module CacheModel {
  import opened Options
  import opened Blocks
  import opened CacheSpec

  /** A process in bget waits for the sleep lock, then holds it, and in brelse has given it up again. */
  datatype Phase = Waiting | Holding | Leaving

  /** One use of a buffer, from bget to brelse: the buffer bget chose, and the block it was asked for. */
  datatype Use = Use(i: nat, key: Key, phase: Phase)

  /** The uses are named by numbers of the processes' choice. With the in-memory log header: lh holds the
      logged blocks, of which install_trans has done the first `tail`. `dirty` are the uses that have
      changed their buffer and not yet logged or written it: the rule that callers keep, which no
      step of the kernel looks at. */
  datatype Sys = Sys(cache: Cache, lh: seq<Key>, tail: nat, room: nat, uses: map<nat, Use>, dirty: set<nat>)

  datatype Action =
    | Get(h: nat, key: Key)          // bget up to the release of bcache.lock
    | Acquire(h: nat)                // acquiresleep returns
    | Read(h: nat)                   // the rest of bread
    | Change(h: nat, data: Block)    // a store into b->data
    | Write(h: nat)                  // bwrite
    | LogWrite(h: nat)               // log_write
    | Install(h: nat, data: Block)   // install_trans: memmove, bwrite and bunpin of one logged block
    | Installed                      // commit: lh.n = 0
    | Release(h: nat)                // brelse: releasesleep
    | Drop(h: nat)                   // brelse: the critical section

  datatype Event = Fetched(key: Key, data: Block) | Stored(key: Key, data: Block)

  /** Logged and not yet installed. */
  predicate Pinned(s: Sys, k: Key) { s.tail <= |s.lh| && k in s.lh[s.tail..] }

  function UseAt(s: Sys, h: nat): (u: Use) { if h in s.uses then s.uses[h] else Use(NBUF, Key(0, 0), Leaving) }

  /** The buffer of a use. */
  function Mine(s: Sys, h: nat): (l: Line) { LineAt(s.cache, UseAt(s, h).i) }

  predicate Holds(s: Sys, h: nat) { h in s.uses && s.uses[h].phase == Holding }

  predicate Enabled(s: Sys, a: Action) {
    match a
    case Get(h, k) => h !in s.uses && k.dev != 0 && k in s.cache.disk && Choose(s.cache, k).Some?
    case Acquire(h) => h in s.uses && s.uses[h].phase == Waiting && !Mine(s, h).locked
    case Read(h) => Holds(s, h)
    case Change(h, _) => Holds(s, h) && Mine(s, h).valid
    case Write(h) => Holds(s, h) && Mine(s, h).valid
    case LogWrite(h) => Holds(s, h) && Mine(s, h).valid && s.tail == 0 && |s.lh| < s.room
    case Install(h, _) => Holds(s, h) && Mine(s, h).valid && s.tail < |s.lh| && s.uses[h].key == s.lh[s.tail]
    case Installed => s.tail == |s.lh| > 0
    case Release(h) => Holds(s, h) && h !in s.dirty
    case Drop(h) => h in s.uses && s.uses[h].phase == Leaving
  }

  function Turned(uses: map<nat, Use>, h: nat, ph: Phase): (r: map<nat, Use>) {
    if h in uses then uses[h := uses[h].(phase := ph)] else uses
  }

  function Do(s: Sys, a: Action): (t: Sys)
    requires Enabled(s, a)
  {
    var c := s.cache;
    match a
    case Get(h, k) =>
      var i := Choose(c, k).value;
      s.(cache := Bget(c, k, i), uses := s.uses[h := Use(i, k, Waiting)])
    case Acquire(h) =>
      s.(cache := SetLine(c, UseAt(s, h).i, Mine(s, h).(locked := true)), uses := Turned(s.uses, h, Holding))
    case Read(h) => s.(cache := SetLine(c, UseAt(s, h).i, Filled(c, UseAt(s, h).i)))
    case Change(h, d) => s.(cache := SetLine(c, UseAt(s, h).i, Mine(s, h).(data := d)), dirty := s.dirty + {h})
    case Write(h) => s.(cache := Bwrite(c, UseAt(s, h).i), dirty := s.dirty - {h})
    case LogWrite(h) =>
      var l := Mine(s, h);
      if l.key in s.lh then s.(dirty := s.dirty - {h})
      else s.(cache := SetLine(c, UseAt(s, h).i, l.(refcnt := l.refcnt + 1)), lh := s.lh + [l.key],
              dirty := s.dirty - {h})
    case Install(h, d) =>
      var i, l := UseAt(s, h).i, Mine(s, h);
      s.(cache := Bwrite(SetLine(c, i, l.(data := d, refcnt := l.refcnt - 1)), i), tail := s.tail + 1,
         dirty := s.dirty - {h})
    case Installed => s.(lh := [], tail := 0)
    case Release(h) => s.(cache := Unlock(c, UseAt(s, h).i), uses := Turned(s.uses, h, Leaving))
    case Drop(h) => s.(cache := Unref(c, UseAt(s, h).i), uses := s.uses - {h})
  }

  /** An action whose guard does not hold is skipped: the process waits, or owes its callee more. */
  function Next(s: Sys, a: Action): (t: Sys) { if Enabled(s, a) then Do(s, a) else s }

  /** What a process reads from, or stores into, the block it asked bget for. */
  function Recorded(s: Sys, a: Action): (es: seq<Event>) {
    if !Enabled(s, a) then []
    else match a
         case Read(h) => [Fetched(s.uses[h].key, Filled(s.cache, s.uses[h].i).data)]
         case Change(h, d) => [Stored(s.uses[h].key, d)]
         case Install(h, d) => [Stored(s.uses[h].key, d)]
         case _ => []
  }

  function RunFrom(s: Sys, actions: seq<Action>): (t: Sys)
    decreases |actions|
  {
    if actions == [] then s else Next(RunFrom(s, actions[..|actions| - 1]), actions[|actions| - 1])
  }

  /** The fetches and stores of a run, in order. */
  function History(s: Sys, actions: seq<Action>): (es: seq<Event>)
    decreases |actions|
  {
    if actions == [] then []
    else
      var init := actions[..|actions| - 1];
      History(s, init) + Recorded(RunFrom(s, init), actions[|actions| - 1])
  }

  function Boot(contents: map<Key, Block>, room: nat): (s: Sys) {
    Sys(PowerOn(contents), [], 0, room, map[], {})
  }

  // ------------------------------------------------------------ the plain map

  function Applied(m: map<Key, Block>, e: Event): (r: map<Key, Block>) {
    match e
    case Fetched(_, _) => m
    case Stored(k, d) => m[k := d]
  }

  /** The plain block-to-bytes map after a run of stores. */
  function Replay(m: map<Key, Block>, events: seq<Event>): (r: map<Key, Block>) {
    if events == [] then m else Applied(Replay(m, events[..|events| - 1]), events[|events| - 1])
  }

  /** Every fetch returns what the plain map holds at that moment. */
  ghost predicate Consistent(m: map<Key, Block>, events: seq<Event>) {
    forall i :: 0 <= i < |events| && events[i].Fetched? ==>
      var r := Replay(m, events[..i]);
      events[i].key in r && events[i].data == r[events[i].key]
  }

  lemma Snoc(m: map<Key, Block>, events: seq<Event>, e: Event)
    requires Consistent(m, events)
    requires e.Fetched? ==> e.key in Replay(m, events) && e.data == Replay(m, events)[e.key]
    ensures Consistent(m, events + [e]) && Replay(m, events + [e]) == Applied(Replay(m, events), e)
  {
    hide Replay;
    var es := events + [e];
    assert es[..|events|] == events;
    ReplayLast(m, events, e);
    forall i | 0 <= i < |es| && es[i].Fetched?
      ensures var r := Replay(m, es[..i]); es[i].key in r && es[i].data == r[es[i].key]
    {
      if i < |events| { assert es[..i] == events[..i]; }
    }
  }

  lemma ReplayLast(m: map<Key, Block>, events: seq<Event>, e: Event)
    ensures Replay(m, events + [e]) == Applied(Replay(m, events), e)
  {
    assert (events + [e])[..|events|] == events;
  }

  // ------------------------------------------------------------ the invariant

  predicate Here(s: Sys, i: nat, k: Key) { i < |s.cache.lines| && s.cache.lines[i].key == k }

  /** The uses of buffer i. */
  function Users(uses: map<nat, Use>, i: nat): (hs: set<nat>) { set h | h in uses && uses[h].i == i }

  /** refcnt counts the uses of the buffer, and the log's pin if the block has one. */
  ghost predicate CountOk(s: Sys, i: nat) {
    i < NBUF ==>
      var l := LineAt(s.cache, i);
      l.refcnt == |Users(s.uses, i)| + (if Pinned(s, l.key) then 1 else 0)
  }

  /** The buffer of a use has the block that the use asked for, and is locked while the use holds it; a use
      that owes a log_write or bwrite holds its buffer. */
  ghost predicate UseOk(s: Sys, h: nat) {
    && (h in s.uses ==>
          var u := s.uses[h];
          && u.i < NBUF && LineAt(s.cache, u.i).key == u.key && u.key.dev != 0 && u.key in s.cache.disk
          && (u.phase == Holding ==> LineAt(s.cache, u.i).locked))
    && (h in s.dirty ==> Holds(s, h) && Mine(s, h).valid)
  }

  /** A sleep lock has one holder. */
  ghost predicate OneHolder(s: Sys, h: nat, g: nat) {
    Holds(s, h) && Holds(s, g) && s.uses[h].i == s.uses[g].i ==> h == g
  }

  ghost predicate OneLine(s: Sys, i: nat, j: nat) {
    i < NBUF && j < NBUF && LineAt(s.cache, i).key == LineAt(s.cache, j).key && LineAt(s.cache, i).key.dev != 0 ==>
      i == j
  }

  /** A pinned block is in the cache. */
  ghost predicate PinOk(s: Sys, k: Key) {
    Pinned(s, k) ==> k.dev != 0 && exists i: nat :: i < NBUF && Here(s, i, k) && LineAt(s.cache, i).valid
  }

  ghost predicate LineOk(s: Sys, view: map<Key, Block>, i: nat) {
    i < NBUF ==>
      var l := LineAt(s.cache, i);
      l.valid && l.key.dev != 0 ==> l.key in view && l.data == view[l.key]
  }

  /** Some use of block k has yet to log or write what it changed. */
  ghost predicate Owed(s: Sys, k: Key) { exists h :: h in s.dirty && UseAt(s, h).key == k }

  /** A block that differs from the disk is pinned, or a holder has yet to log or write it. */
  ghost predicate DiskOk(s: Sys, view: map<Key, Block>, k: Key) {
    && (k in s.cache.disk <==> k in view)
    && (k in view && k.dev != 0 && view[k] != s.cache.disk[k] ==> Pinned(s, k) || Owed(s, k))
  }

  ghost predicate Shape(s: Sys) {
    && |s.cache.lines| == NBUF && s.tail <= |s.lh|
    && (forall i: nat {:trigger i in s.cache.ring} :: i in s.cache.ring <==> i < NBUF)
    && (forall a, b :: 0 <= a < b < |s.lh| ==> s.lh[a] != s.lh[b])
  }

  ghost predicate Inv(s: Sys, view: map<Key, Block>) {
    && Shape(s)
    && (forall i: nat {:trigger CountOk(s, i)} :: CountOk(s, i))
    && (forall h: nat {:trigger UseOk(s, h)} :: UseOk(s, h))
    && (forall h: nat, g: nat {:trigger OneHolder(s, h, g)} :: OneHolder(s, h, g))
    && (forall i: nat, j: nat {:trigger OneLine(s, i, j)} :: OneLine(s, i, j))
    && (forall k {:trigger PinOk(s, k)} :: PinOk(s, k))
    && (forall i: nat {:trigger LineOk(s, view, i)} :: LineOk(s, view, i))
    && (forall k {:trigger DiskOk(s, view, k)} :: DiskOk(s, view, k))
  }

  lemma OfLine(s: Sys, view: map<Key, Block>, i: nat)
    requires Inv(s, view)
    ensures CountOk(s, i) && LineOk(s, view, i) && Shape(s)
  {
    hide CountOk, UseOk, OneHolder, OneLine, PinOk, LineOk, DiskOk, Shape;
  }

  lemma OfUse(s: Sys, view: map<Key, Block>, h: nat)
    requires Inv(s, view)
    ensures UseOk(s, h) && Shape(s)
  {
    hide CountOk, UseOk, OneHolder, OneLine, PinOk, LineOk, DiskOk, Shape;
  }

  lemma OfHolders(s: Sys, view: map<Key, Block>, h: nat, g: nat)
    requires Inv(s, view)
    ensures OneHolder(s, h, g)
  {
    hide CountOk, UseOk, OneHolder, OneLine, PinOk, LineOk, DiskOk, Shape;
  }

  lemma OfKey(s: Sys, view: map<Key, Block>, k: Key)
    requires Inv(s, view)
    ensures PinOk(s, k) && DiskOk(s, view, k) && Shape(s)
  {
    hide CountOk, UseOk, OneHolder, OneLine, PinOk, LineOk, DiskOk, Shape;
  }

  lemma OfTwo(s: Sys, view: map<Key, Block>, i: nat, j: nat)
    requires Inv(s, view)
    ensures OneLine(s, i, j)
  {
    hide CountOk, UseOk, OneHolder, OneLine, PinOk, LineOk, DiskOk, Shape;
  }

  // ------------------------------------------------------------ the scans of bget

  /** The buffer bget takes: the block's own, or one that nobody references, whose block is not pinned. */
  lemma Chosen(s: Sys, view: map<Key, Block>, key: Key)
    requires Inv(s, view) && Choose(s.cache, key).Some?
    ensures var i := Choose(s.cache, key).value;
            var hit := FirstOf(s.cache, s.cache.ring, key).Some?;
            && i < NBUF && hit == (LineAt(s.cache, i).key == key)
            && (!hit ==> LineAt(s.cache, i).refcnt == 0 && !Pinned(s, LineAt(s.cache, i).key) && Users(s.uses, i) == {}
                         && forall j :: 0 <= j < NBUF ==> LineAt(s.cache, j).key != key)
  {
    hide Inv, Pinned, LineOk;
    var i := Choose(s.cache, key).value;
    OfLine(s, view, i);
    FirstIs(s.cache, s.cache.ring, key);
    LastIs(s.cache, s.cache.ring);
    forall j: nat | j < NBUF ensures j in s.cache.ring {}
  }

  // ------------------------------------------------------------ every action keeps the invariant

  /** The plain map after an action. */
  function ViewAfter(s: Sys, view: map<Key, Block>, a: Action): (v: map<Key, Block>)
    requires Enabled(s, a)
  {
    if a.Change? || a.Install? then view[s.uses[a.h].key := a.data] else view
  }

  /** The buffer an action works on. */
  function Subject(s: Sys, a: Action): (i: nat)
    requires Enabled(s, a)
  {
    if a.Get? then Choose(s.cache, a.key).value else if a.Installed? then NBUF else UseAt(s, a.h).i
  }

  /** What becomes of it. */
  function NewLine(s: Sys, a: Action): (l: Line)
    requires Enabled(s, a)
  {
    var l := LineAt(s.cache, Subject(s, a));
    match a
    case Get(_, k) => if FirstOf(s.cache, s.cache.ring, k).Some? then l.(refcnt := l.refcnt + 1)
                      else Line(k, false, l.data, l.locked, 1)
    case Acquire(_) => l.(locked := true)
    case Read(_) => Filled(s.cache, Subject(s, a))
    case Change(_, d) => l.(data := d)
    case Write(_) => l
    case LogWrite(_) => if l.key in s.lh then l else l.(refcnt := l.refcnt + 1)
    case Install(_, d) => l.(data := d, refcnt := l.refcnt - 1)
    case Installed => l
    case Release(_) => l.(locked := false)
    case Drop(_) => l.(refcnt := l.refcnt - 1)
  }

  lemma LinesAfter(s: Sys, a: Action, j: nat)
    requires Enabled(s, a) && |s.cache.lines| == NBUF
    ensures |Do(s, a).cache.lines| == NBUF
    ensures j < NBUF ==> LineAt(Do(s, a).cache, j) == if j == Subject(s, a) then NewLine(s, a) else LineAt(s.cache, j)
  {
    hide FirstOf, Choose, LastUnused, Dropped;
  }

  lemma DiskAfter(s: Sys, a: Action)
    requires Enabled(s, a) && |s.cache.lines| == NBUF && (a.Install? ==> UseAt(s, a.h).i < NBUF)
    ensures Do(s, a).cache.disk ==
            if a.Write? then s.cache.disk[Mine(s, a.h).key := Mine(s, a.h).data]
            else if a.Install? then s.cache.disk[Mine(s, a.h).key := a.data] else s.cache.disk
  {
    hide FirstOf, Choose, LastUnused, Dropped;
  }

  lemma PinnedAfter(s: Sys, a: Action, k: Key)
    requires Enabled(s, a) && Shape(s)
    ensures Pinned(Do(s, a), k) == if a.LogWrite? && k == Mine(s, a.h).key then true
                                   else if a.Install? && k == s.uses[a.h].key then false else Pinned(s, k)
  {
    hide FirstOf, Choose, LastUnused, Dropped, Bget, Unref, Bwrite, SetLine, Filled;
    if a.Install? { assert s.lh[s.tail..] == [s.lh[s.tail]] + s.lh[s.tail + 1..]; }
    if a.LogWrite? && Mine(s, a.h).key !in s.lh {
      assert Do(s, a).lh[0..] == s.lh[0..] + [Mine(s, a.h).key];
    }
  }

  /** The uses after an action. */
  lemma UsesAfter(s: Sys, a: Action, g: nat)
    requires Enabled(s, a)
    ensures g in Do(s, a).uses <==> (g in s.uses && !(a.Drop? && g == a.h)) || (a.Get? && g == a.h)
    ensures g in Do(s, a).uses && !(a.Get? && g == a.h) ==>
              Do(s, a).uses[g] == if a.Acquire? && g == a.h then s.uses[g].(phase := Holding)
                                  else if a.Release? && g == a.h then s.uses[g].(phase := Leaving) else s.uses[g]
    ensures a.Get? ==> Do(s, a).uses[a.h] == Use(Subject(s, a), a.key, Waiting)
    ensures Do(s, a).dirty == if a.Change? then s.dirty + {a.h}
                              else if a.Write? || a.LogWrite? || a.Install? then s.dirty - {a.h} else s.dirty
  {
    hide FirstOf, Choose, LastUnused, Dropped, Bget, Unref, Bwrite, SetLine, Filled, Unlock;
  }

  lemma UsersAfter(s: Sys, a: Action, i: nat)
    requires Enabled(s, a)
    ensures |Users(Do(s, a).uses, i)| == |Users(s.uses, i)|
            + (if a.Get? && i == Subject(s, a) then 1 else if a.Drop? && i == Subject(s, a) then -1 else 0)
  {
    hide Enabled, Do, Choose, Subject;
    var u, v := Users(s.uses, i), Users(Do(s, a).uses, i);
    UsersIs(s, a, i);
  }

  lemma UsersIs(s: Sys, a: Action, i: nat)
    requires Enabled(s, a)
    ensures a.Get? && i == Subject(s, a) ==>
              a.h !in Users(s.uses, i) && Users(Do(s, a).uses, i) == Users(s.uses, i) + {a.h}
    ensures a.Drop? && i == Subject(s, a) ==>
              a.h in Users(s.uses, i) && Users(Do(s, a).uses, i) == Users(s.uses, i) - {a.h}
    ensures !((a.Get? || a.Drop?) && i == Subject(s, a)) ==> Users(Do(s, a).uses, i) == Users(s.uses, i)
  {
    hide FirstOf, Choose, LastUnused, Dropped, Bget, Unref, Bwrite, SetLine, Filled, Unlock, Do;
    forall g: nat
      ensures g in Users(Do(s, a).uses, i) <==>
              (g in Users(s.uses, i) && !(a.Drop? && g == a.h)) || (a.Get? && g == a.h && i == Subject(s, a))
    {
      UsesAfter(s, a, g);
    }
  }

  /** The buffer an action works on exists. */
  lemma SubjectIs(s: Sys, view: map<Key, Block>, a: Action)
    requires Inv(s, view) && Enabled(s, a) && !a.Installed?
    ensures Subject(s, a) < NBUF
    ensures !a.Get? ==> a.h in s.uses && Mine(s, a.h).key == s.uses[a.h].key && s.uses[a.h].key.dev != 0
                        && s.uses[a.h].key in s.cache.disk
  {
    hide Inv, CountOk, LineOk, Pinned;
    if a.Get? { Chosen(s, view, a.key); } else { OfUse(s, view, a.h); }
  }

  lemma ShapeKept(s: Sys, view: map<Key, Block>, a: Action)
    requires Inv(s, view) && Enabled(s, a)
    ensures Shape(Do(s, a))
  {
    hide Inv, CountOk, LineOk, Pinned, FirstOf, Choose, LastUnused, Dropped, Bget, Bwrite, Filled;
    OfLine(s, view, 0);
    if !a.Installed? { SubjectIs(s, view, a); }
    LinesAfter(s, a, 0);
    RingAfter(s, a);
  }

  lemma RingAfter(s: Sys, a: Action)
    requires Shape(s) && Enabled(s, a) && (a.Drop? ==> UseAt(s, a.h).i < NBUF)
    ensures forall i: nat {:trigger i in Do(s, a).cache.ring} :: i in Do(s, a).cache.ring <==> i < NBUF
  {
    hide FirstOf, Choose, LastUnused, Dropped, Filled;
    if a.Drop? {
      var j := UseAt(s, a.h).i;
      forall i: nat ensures i in ToFront(s.cache.ring, j) <==> i < NBUF { DroppedIs(s.cache.ring, j, i); }
    }
  }

  lemma CountKept(s: Sys, view: map<Key, Block>, a: Action, i: nat)
    requires Inv(s, view) && Enabled(s, a)
    ensures CountOk(Do(s, a), i)
  {
    hide Inv, Pinned, FirstOf, Choose, LastUnused, Dropped, Bget, Unref, Bwrite, SetLine, Filled, LineOk, OneLine,
      Users, Do;
    if i < NBUF {
      OfLine(s, view, i);
      if !a.Installed? { SubjectIs(s, view, a); }
      LinesAfter(s, a, i);
      UsersAfter(s, a, i);
      PinnedAfter(s, a, LineAt(Do(s, a).cache, i).key);
      PinnedAfter(s, a, LineAt(s.cache, i).key);
      if a.Get? {
        Chosen(s, view, a.key);
        if i == Subject(s, a) && FirstOf(s.cache, s.cache.ring, a.key) == None { FreshPin(s, view, a.key); }
      }
      if a.Read? { FilledIs(s.cache, UseAt(s, a.h).i); }
      if (a.LogWrite? || a.Install?) && LineAt(s.cache, i).key == Mine(s, a.h).key { OneOf(s, view, i, a.h); }
      if a.LogWrite? { LoggedIs(s, a); }
      if a.Install? { InstalledIs(s, a); }
    }
  }

  lemma FilledIs(c: Cache, i: nat)
    ensures var l, f := LineAt(c, i), Filled(c, i);
            f.key == l.key && f.refcnt == l.refcnt && f.locked == l.locked && (l.valid ==> f == l)
            && (!l.valid && l.key in c.disk ==> f.valid && f.data == c.disk[l.key])
  {
  }

  lemma LoggedIs(s: Sys, a: Action)
    requires Enabled(s, a) && a.LogWrite?
    ensures Mine(s, a.h).key in s.lh <==> Pinned(s, Mine(s, a.h).key)
  {
    hide LineAt;
    assert s.lh[0..] == s.lh;
  }

  lemma InstalledIs(s: Sys, a: Action)
    requires Enabled(s, a) && a.Install?
    ensures Pinned(s, s.uses[a.h].key)
  {
    hide LineAt;
    assert s.lh[s.tail..][0] == s.lh[s.tail];
  }

  /** A block that is not in the cache has no pin. */
  lemma FreshPin(s: Sys, view: map<Key, Block>, k: Key)
    requires Inv(s, view) && forall j: nat :: j < NBUF ==> LineAt(s.cache, j).key != k
    ensures !Pinned(s, k)
  {
    hide Inv, Pinned, DiskOk, Shape;
    OfKey(s, view, k);
  }

  /** A block that a process has asked for is in no buffer but that of the process. */
  lemma OneOf(s: Sys, view: map<Key, Block>, i: nat, h: nat)
    requires Inv(s, view) && i < NBUF && h in s.uses && LineAt(s.cache, i).key == Mine(s, h).key
    ensures i == s.uses[h].i
  {
    hide Inv, Pinned, LineOk, Shape;
    OfTwo(s, view, i, s.uses[h].i);
    OfUse(s, view, h);
  }

  /** A buffer that somebody has keeps its block. */
  lemma KeyStays(s: Sys, view: map<Key, Block>, a: Action, h: nat)
    requires Inv(s, view) && Enabled(s, a) && h in s.uses
    ensures LineAt(Do(s, a).cache, s.uses[h].i).key == s.uses[h].key
    ensures LineAt(Do(s, a).cache, s.uses[h].i).valid || !Mine(s, h).valid
  {
    hide Inv, Pinned, FirstOf, Choose, LastUnused, Dropped, Bget, Unref, Bwrite, SetLine, Filled, Do;
    OfUse(s, view, h);
    LinesAfter(s, a, s.uses[h].i);
    if a.Get? {
      Chosen(s, view, a.key);
      assert h in Users(s.uses, s.uses[h].i);
    }
    if a.Read? { FilledIs(s.cache, UseAt(s, a.h).i); }
  }

  lemma UseKept(s: Sys, view: map<Key, Block>, a: Action, g: nat)
    requires Inv(s, view) && Enabled(s, a)
    ensures UseOk(Do(s, a), g)
  {
    hide Inv, Pinned, FirstOf, Choose, LastUnused, Dropped, Bget, Unref, Bwrite, SetLine, Filled, Do, LineOk, CountOk;
    UsesAfter(s, a, g);
    OfUse(s, view, g);
    if !a.Installed? { SubjectIs(s, view, a); }
    DiskAfter(s, a);
    if g in s.uses {
      KeyStays(s, view, a, g);
      LockStays(s, view, a, g);
    } else if a.Get? && g == a.h {
      Chosen(s, view, a.key);
      LinesAfter(s, a, Subject(s, a));
    }
  }

  /** The sleep lock of a holder stays taken until it releases it. */
  lemma LockStays(s: Sys, view: map<Key, Block>, a: Action, g: nat)
    requires Inv(s, view) && Enabled(s, a) && g in s.uses
    ensures Holds(Do(s, a), g) ==> LineAt(Do(s, a).cache, s.uses[g].i).locked
  {
    hide Inv, Pinned, FirstOf, Choose, LastUnused, Dropped, Bget, Unref, Bwrite, SetLine, Filled, Do, LineOk, CountOk;
    UsesAfter(s, a, g);
    OfUse(s, view, g);
    LinesAfter(s, a, s.uses[g].i);
    if a.Release? { OfHolders(s, view, a.h, g); }
    if a.Read? { FilledIs(s.cache, UseAt(s, a.h).i); }
  }

  lemma HoldersKept(s: Sys, view: map<Key, Block>, a: Action, h: nat, g: nat)
    requires Inv(s, view) && Enabled(s, a)
    ensures OneHolder(Do(s, a), h, g)
  {
    hide Inv, Pinned, FirstOf, Choose, LastUnused, Dropped, Bget, Unref, Bwrite, SetLine, Filled, Do, LineOk, CountOk;
    UsesAfter(s, a, h);
    UsesAfter(s, a, g);
    OfHolders(s, view, h, g);
    OfUse(s, view, h);
    OfUse(s, view, g);
  }

  lemma OneKept(s: Sys, view: map<Key, Block>, a: Action, i: nat, j: nat)
    requires Inv(s, view) && Enabled(s, a)
    ensures OneLine(Do(s, a), i, j)
  {
    hide Inv, Pinned, FirstOf, Choose, LastUnused, Dropped, Bget, Unref, Bwrite, SetLine, Filled, LineOk, CountOk, Do;
    if i < NBUF && j < NBUF {
      OfLine(s, view, i);
      OfTwo(s, view, i, j);
      LinesAfter(s, a, i);
      LinesAfter(s, a, j);
      if a.Get? { Chosen(s, view, a.key); }
      if a.Read? { FilledIs(s.cache, UseAt(s, a.h).i); }
    }
  }

  lemma PinKept(s: Sys, view: map<Key, Block>, a: Action, k: Key)
    requires Inv(s, view) && Enabled(s, a)
    ensures PinOk(Do(s, a), k)
  {
    hide Inv, Pinned, FirstOf, Choose, LastUnused, Dropped, Bget, Unref, Bwrite, SetLine, Filled, LineOk, OneLine,
      DiskOk, Do;
    OfKey(s, view, k);
    PinnedAfter(s, a, k);
    if Pinned(Do(s, a), k) {
      if a.LogWrite? && k == Mine(s, a.h).key {
        SubjectIs(s, view, a);
        LinesAfter(s, a, UseAt(s, a.h).i);
        assert Here(Do(s, a), UseAt(s, a.h).i, k);
      } else {
        var i: nat :| i < NBUF && Here(s, i, k) && LineAt(s.cache, i).valid;
        OfLine(s, view, i);
        LinesAfter(s, a, i);
        if a.Get? { Chosen(s, view, a.key); }
        if a.Read? { FilledIs(s.cache, UseAt(s, a.h).i); }
        assert Here(Do(s, a), i, k);
      }
    }
  }

  lemma LineKept(s: Sys, view: map<Key, Block>, a: Action, i: nat)
    requires Inv(s, view) && Enabled(s, a)
    ensures LineOk(Do(s, a), ViewAfter(s, view, a), i)
  {
    hide Inv, Pinned, FirstOf, Choose, LastUnused, Dropped, Bget, Unref, Bwrite, SetLine, Filled, OneLine, Do;
    if i < NBUF {
      OfLine(s, view, i);
      LinesAfter(s, a, i);
      if a.Get? { Chosen(s, view, a.key); }
      if a.Read? && i == UseAt(s, a.h).i {
        SubjectIs(s, view, a);
        FillAgrees(s, view, a.h);
        FilledIs(s.cache, i);
      }
      if a.Change? || a.Install? {
        SubjectIs(s, view, a);
        if LineAt(s.cache, i).key == Mine(s, a.h).key { OneOf(s, view, i, a.h); }
      }
    }
  }

  /** bread fills a buffer with what the plain map holds: a block that differs from the disk is already
      valid in its buffer. */
  lemma FillAgrees(s: Sys, view: map<Key, Block>, h: nat)
    requires Inv(s, view) && Holds(s, h)
    ensures var k, l := s.uses[h].key, Filled(s.cache, s.uses[h].i); k in view && l.data == view[k] && l.valid
  {
    hide Inv, Pinned, OneLine, Filled;
    var i, k := s.uses[h].i, s.uses[h].key;
    OfUse(s, view, h);
    OfLine(s, view, i);
    OfKey(s, view, k);
    FilledIs(s.cache, i);
    if !Mine(s, h).valid && view[k] != s.cache.disk[k] {
      if Pinned(s, k) {
        var j: nat :| j < NBUF && Here(s, j, k) && LineAt(s.cache, j).valid;
        OneOf(s, view, j, h);
      } else {
        var g :| g in s.dirty && UseAt(s, g).key == k;
        OfUse(s, view, g);
        OneOf(s, view, s.uses[g].i, h);
      }
    }
  }

  lemma DiskKept(s: Sys, view: map<Key, Block>, a: Action, k: Key)
    requires Inv(s, view) && Enabled(s, a)
    ensures DiskOk(Do(s, a), ViewAfter(s, view, a), k)
  {
    hide Inv, Pinned, FirstOf, Choose, LastUnused, Dropped, Bget, Unref, Bwrite, SetLine, Filled, OneLine, PinOk, Do,
      Owed;
    OfKey(s, view, k);
    if !a.Installed? {
      SubjectIs(s, view, a);
      OfLine(s, view, Subject(s, a));
    }
    DiskAfter(s, a);
    PinnedAfter(s, a, k);
    OwedStays(s, view, a, k);
  }

  /** What a holder owes it owes until it logs or writes its buffer. */
  lemma OwedStays(s: Sys, view: map<Key, Block>, a: Action, k: Key)
    requires Inv(s, view) && Enabled(s, a)
    ensures Owed(s, k) ==> Owed(Do(s, a), k) || ((a.Write? || a.LogWrite? || a.Install?) && s.uses[a.h].key == k)
    ensures a.Change? && s.uses[a.h].key == k ==> Owed(Do(s, a), k)
  {
    hide Inv, Pinned, FirstOf, Choose, LastUnused, Dropped, Bget, Unref, Bwrite, SetLine, Filled, OneLine, LineOk, Do;
    if g :| g in s.dirty && UseAt(s, g).key == k {
      OfUse(s, view, g);
      UsesAfter(s, a, g);
      assert g in Do(s, a).dirty ==> UseAt(Do(s, a), g).key == k;
    }
    if a.Change? {
      UsesAfter(s, a, a.h);
      assert a.h in Do(s, a).dirty && UseAt(Do(s, a), a.h).key == s.uses[a.h].key;
    }
  }

  lemma StepKeeps(s: Sys, view: map<Key, Block>, a: Action)
    requires Inv(s, view) && Enabled(s, a)
    ensures Inv(Do(s, a), ViewAfter(s, view, a))
  {
    hide CountOk, UseOk, OneHolder, OneLine, PinOk, LineOk, DiskOk, Shape, Do, Enabled, ViewAfter;
    var t, v := Do(s, a), ViewAfter(s, view, a);
    ShapeKept(s, view, a);
    forall i: nat ensures CountOk(t, i) { CountKept(s, view, a, i); }
    forall h: nat ensures UseOk(t, h) { UseKept(s, view, a, h); }
    forall h: nat, g: nat ensures OneHolder(t, h, g) { HoldersKept(s, view, a, h, g); }
    forall i: nat, j: nat ensures OneLine(t, i, j) { OneKept(s, view, a, i, j); }
    forall k ensures PinOk(t, k) { PinKept(s, view, a, k); }
    forall i: nat ensures LineOk(t, v, i) { LineKept(s, view, a, i); }
    forall k ensures DiskOk(t, v, k) { DiskKept(s, view, a, k); }
  }

  lemma BootIsOk(contents: map<Key, Block>, room: nat)
    ensures Inv(Boot(contents, room), contents)
  {
    var s := Boot(contents, room);
    forall i: nat ensures i in s.cache.ring <==> i < NBUF {
      if i < NBUF { assert s.cache.ring[NBUF - 1 - i] == i; }
    }
    forall i: nat ensures Users(s.uses, i) == {} {}
  }

  // ------------------------------------------------------------ whole runs

  lemma {:induction false} RunKeeps(contents: map<Key, Block>, room: nat, actions: seq<Action>)
    ensures var s := Boot(contents, room);
            var es := History(s, actions);
            Inv(RunFrom(s, actions), Replay(contents, es)) && Consistent(contents, es)
    decreases |actions|
  {
    hide Inv, Replay, Consistent, Boot, Do, Enabled;
    var s := Boot(contents, room);
    BootIsOk(contents, room);
    if actions == [] {
      Nothing(contents);
    } else {
      var init, a := actions[..|actions| - 1], actions[|actions| - 1];
      RunKeeps(contents, room, init);
      OneStep(contents, RunFrom(s, init), History(s, init), a);
    }
  }

  lemma Nothing(contents: map<Key, Block>)
    ensures Replay(contents, []) == contents && Consistent(contents, [])
  {
  }

  lemma OneStep(contents: map<Key, Block>, s: Sys, es: seq<Event>, a: Action)
    requires Inv(s, Replay(contents, es)) && Consistent(contents, es)
    ensures Inv(Next(s, a), Replay(contents, es + Recorded(s, a))) && Consistent(contents, es + Recorded(s, a))
  {
    hide Inv, Replay, Consistent, Do, FirstOf, Choose, LastUnused, Filled, LineOk, Pinned, CountOk, LineAt;
    var view := Replay(contents, es);
    if Enabled(s, a) {
      StepKeeps(s, view, a);
      if a.Read? { FillAgrees(s, view, a.h); }
      if Recorded(s, a) == [] {
        assert es + [] == es;
      } else {
        Snoc(contents, es, Recorded(s, a)[0]);
      }
    } else {
      assert es + [] == es;
    }
  }

  /** In every run from power-on, every bread returns what a plain map from blocks to bytes would hold for
      the block it was asked for. */
  lemma CacheIsPlainMap(contents: map<Key, Block>, room: nat, actions: seq<Action>)
    ensures Consistent(contents, History(Boot(contents, room), actions))
  {
    hide Consistent, History;
    RunKeeps(contents, room, actions);
  }

  /** A block that has been logged and not yet installed is in the cache, with its logged bytes, in a
      buffer that is referenced, so bget gives that buffer to no other block. */
  lemma PinnedNeverRecycled(contents: map<Key, Block>, room: nat, actions: seq<Action>, k: Key) returns (i: nat)
    requires Pinned(RunFrom(Boot(contents, room), actions), k)
    ensures var s := RunFrom(Boot(contents, room), actions);
            var view := Replay(contents, History(Boot(contents, room), actions));
            var l := LineAt(s.cache, i);
            && i < NBUF && l.key == k && l.valid && k in view && l.data == view[k] && l.refcnt > 0
            && forall other :: other != k ==> Choose(s.cache, other) != Some(i)
  {
    hide Inv, RunFrom, History, Replay, Boot, Pinned, OneLine, DiskOk, Shape, Choose, Consistent;
    RunKeeps(contents, room, actions);
    var s := RunFrom(Boot(contents, room), actions);
    var view := Replay(contents, History(Boot(contents, room), actions));
    OfKey(s, view, k);
    i :| i < NBUF && Here(s, i, k) && LineAt(s.cache, i).valid;
    OfLine(s, view, i);
    forall other | other != k ensures Choose(s.cache, other) != Some(i) {
      if Choose(s.cache, other).Some? { Chosen(s, view, other); }
    }
  }

  /** One buffer per block, in every state of every run. */
  lemma OneBufferPerBlock(contents: map<Key, Block>, room: nat, actions: seq<Action>, i: nat, j: nat)
    requires i < NBUF && j < NBUF
    requires var c := RunFrom(Boot(contents, room), actions).cache; LineAt(c, i).key == LineAt(c, j).key
                                                                    && LineAt(c, i).key.dev != 0
    ensures i == j
  {
    hide Inv, RunFrom, History, Replay, Boot, Consistent;
    RunKeeps(contents, room, actions);
    OfTwo(RunFrom(Boot(contents, room), actions), Replay(contents, History(Boot(contents, room), actions)), i, j);
  }

  /** From bget to brelse, the buffer a process has is that of the block it asked for, whatever the other
      processes do; and its sleep lock has one holder. */
  lemma BufferKeepsBlock(contents: map<Key, Block>, room: nat, actions: seq<Action>, h: nat)
    requires h in RunFrom(Boot(contents, room), actions).uses
    ensures var s := RunFrom(Boot(contents, room), actions);
            && Mine(s, h).key == s.uses[h].key && Mine(s, h).refcnt > 0
            && (Holds(s, h) ==> Mine(s, h).locked && forall g :: Holds(s, g) && s.uses[g].i == s.uses[h].i ==> g == h)
  {
    hide Inv, RunFrom, History, Replay, Boot, Consistent;
    RunKeeps(contents, room, actions);
    var s, view := RunFrom(Boot(contents, room), actions), Replay(contents, History(Boot(contents, room), actions));
    OfUse(s, view, h);
    OfLine(s, view, s.uses[h].i);
    assert h in Users(s.uses, s.uses[h].i);
    forall g | Holds(s, g) && Holds(s, h) && s.uses[g].i == s.uses[h].i ensures g == h { OfHolders(s, view, g, h); }
  }

  lemma DropAgrees(s: Sys, view: map<Key, Block>, h: nat)
    requires Inv(s, view) && Enabled(s, Drop(h)) && Mine(s, h).refcnt == 1
    ensures var k := s.uses[h].key; k in view && k in s.cache.disk && view[k] == s.cache.disk[k]
  {
    hide Inv, Pinned, OneLine, PinOk, LineOk;
    var i, k := s.uses[h].i, s.uses[h].key;
    OfUse(s, view, h);
    OfLine(s, view, i);
    OfKey(s, view, k);
    assert h in Users(s.uses, i);
    if g :| g in s.dirty && UseAt(s, g).key == k {
      OfUse(s, view, g);
      OneOf(s, view, s.uses[g].i, h);
      TwoUsers(s.uses, i, g, h);
    }
  }

  /** What brelse owes the next bget follows from the rule that callers log or write what they change: in every
      run, a buffer whose last reference goes agrees with the disk. */
  lemma ReleasedAgrees(contents: map<Key, Block>, room: nat, actions: seq<Action>, h: nat)
    requires var s := RunFrom(Boot(contents, room), actions); Enabled(s, Drop(h)) && Mine(s, h).refcnt == 1
    ensures var s := RunFrom(Boot(contents, room), actions);
            var view := Replay(contents, History(Boot(contents, room), actions));
            var k := s.uses[h].key; k in view && k in s.cache.disk && view[k] == s.cache.disk[k]
  {
    hide Inv, RunFrom, History, Replay, Boot, Consistent;
    RunKeeps(contents, room, actions);
    DropAgrees(RunFrom(Boot(contents, room), actions), Replay(contents, History(Boot(contents, room), actions)), h);
  }

  lemma TwoUsers(uses: map<nat, Use>, i: nat, g: nat, h: nat)
    requires g in uses && h in uses && uses[g].i == i && uses[h].i == i && g != h
    ensures |Users(uses, i)| >= 2
  {
    var u := Users(uses, i);
    assert {g, h} <= u && |u - {g} - {h}| >= 0;
    assert |u - {g}| == |u| - 1 && |u - {g} - {h}| == |u - {g}| - 1;
  }
}
