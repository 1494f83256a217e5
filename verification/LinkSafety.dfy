/** Link safety of LinkMachine: in every interleaving, nlink covers every directory entry, no inode is
    freed while an entry or another reference is left, and the panics of unlink and ilock are not
    reached. */
module LinkSafety {
  import opened Options
  import opened LinkMachine
  import opened LinkTables

  // ------------------------------------------------------------ counting

  /** What m maps to i. */
  ghost function Pre<K>(m: map<K, nat>, i: nat): (ks: set<K>) { set k | k in m && m[k] == i }

  lemma PreAdd<K>(m: map<K, nat>, k: K, v: nat, i: nat)
    requires k !in m
    ensures |Pre(m[k := v], i)| == |Pre(m, i)| + if i == v then 1 else 0
  {
    assert Pre(m[k := v], i) == if i == v then Pre(m, i) + {k} else Pre(m, i);
  }

  lemma PreDel<K>(m: map<K, nat>, k: K, i: nat)
    requires k in m
    ensures |Pre(m - {k}, i)| == |Pre(m, i)| - if i == m[k] then 1 else 0
  {
    assert Pre(m - {k}, i) == if i == m[k] then Pre(m, i) - {k} else Pre(m, i);
  }

  lemma PreMove<K>(m: map<K, nat>, k: K, k': K, i: nat)
    requires k in m && k' !in m && k != k'
    ensures |Pre((m - {k})[k' := m[k]], i)| == |Pre(m, i)|
  {
    PreDel(m, k, i);
    PreAdd(m - {k}, k', m[k], i);
  }

  lemma InPre<K>(m: map<K, nat>, k: K, i: nat)
    requires k in m && m[k] == i
    ensures k in Pre(m, i) && |Pre(m, i)| >= 1
  {
    assert k in Pre(m, i);
  }

  lemma OnlyOne<K>(ks: set<K>, k: K)
    requires |ks| == 1 && k in ks
    ensures ks == {k}
  {
    assert |ks - {k}| == 0;
  }

  lemma NonePre<K>(m: map<K, nat>, i: nat)
    requires forall k {:trigger k in m} :: k in m ==> m[k] != i
    ensures |Pre(m, i)| == 0
  {
    assert Pre(m, i) == {};
  }

  // ------------------------------------------------------------ the invariant

  function Th(s: State, p: nat): (t: Thread) {
    if p < |s.threads| then s.threads[p] else Thread(Out, 0, 0, 0, Dot, Free, NONE)
  }

  ghost predicate PlanOk(s: State, p: nat) { Planned(Th(s, p)) && Leads(Th(s, p).pc) }

  ghost predicate HoldOk(s: State, h: Holder) {
    h in s.hold && h.Reg? ==> Held(Th(s, h.p).bits, h.r) && RegOf(Th(s, h.p), h.r) == s.hold[h]
  }

  ghost predicate HeldOk(s: State, p: nat, r: R) {
    Held(Th(s, p).bits, r) ==> Reg(p, r) in s.hold && s.hold[Reg(p, r)] == RegOf(Th(s, p), r)
  }

  /** ref counts the references. */
  ghost predicate RefOk(s: State, i: nat) { InoAt(s, i).ref == |Pre(s.hold, i)| }

  ghost predicate LockOk(s: State, i: nat) { InoAt(s, i).lock.Some? ==> Owns(Th(s, InoAt(s, i).lock.value), i) }

  ghost predicate OwnOk(s: State, p: nat, r: R) {
    var t := Th(s, p);
    Locked(t.bits, r) ==>
      && Held(t.bits, r) && InoAt(s, RegOf(t, r)).lock == Some(p)
      && forall x :: Locked(t.bits, x) && RegOf(t, x) == RegOf(t, r) ==> x == r
  }

  /** What each token of `links` stands for. */
  ghost predicate TokOk(s: State, k: Tok) {
    k in s.links ==>
      match k
      case Root => s.links[k] == ROOT
      case Entry(st) => st < s.next
      case Sub(st) => st < s.next
      case Pend(p) => Pending(Dest(Th(s, p).pc)) && s.links[k] == Th(s, p).a
      case PendDir(p) => Th(s, p).pc == UDecDir && s.links[k] == Th(s, p).b
  }

  ghost predicate PendOk(s: State, p: nat) {
    && (Pending(Dest(Th(s, p).pc)) ==> Pend(p) in s.links)
    && (Th(s, p).pc == UDecDir ==> PendDir(p) in s.links)
  }

  /** nlink as the kernel would see it: the itable entry when it is in use and valid, else the disk. */
  function Nlink(o: Ino): (n: int) { if o.ref > 0 && o.valid then o.nlink else o.dnlink }

  ghost predicate CountOk(s: State, i: nat) { Nlink(InoAt(s, i)) == |Pre(s.links, i)| }

  function DirtAt(s: State, i: nat): (d: Dirt) {
    if InoAt(s, i).lock.Some? then DirtOf(Th(s, InoAt(s, i).lock.value), i) else Clean
  }

  /** An itable entry in use agrees with the disk as far as its lock's owner lets it. */
  ghost predicate Agrees(o: Ino, d: Dirt) {
    o.ref > 0 && o.valid ==>
      match d
      case Clean => o.kind == o.dkind && o.kind != Free && o.nlink == o.dnlink
      case Dirty => o.kind == o.dkind && o.kind != Free
      case Cleared => o.kind == Free && o.nlink == 0
      case Stored => o.kind == Free && o.nlink == 0 && o.dnlink == 0
  }

  ghost predicate CacheOk(s: State, i: nat) { Agrees(InoAt(s, i), DirtAt(s, i)) }

  /** A locked inode has been read, except when iput has given it up. */
  ghost predicate Loaded(s: State, p: nat, r: R) {
    Locked(Th(s, p).bits, r) ==> InoAt(s, RegOf(Th(s, p), r)).valid == !GivingUp(Th(s, p).pc, r)
  }

  ghost predicate TokLive(s: State, k: Tok) { k in s.links ==> InoAt(s, s.links[k]).dkind != Free }

  predicate Spent(s: State, h: Holder) { h.Reg? && SpentAt(Th(s, h.p).pc, h.r) }

  ghost predicate HoldLive(s: State, h: Holder) { h in s.hold && !Spent(s, h) ==> InoAt(s, s.hold[h]).dkind != Free }

  /** Types of the inodes a thread works on. */
  ghost predicate KindOk(s: State, p: nat) {
    var t := Th(s, p);
    var d := Dest(t.pc);
    && (d != Out ==> t.kind != Free)
    && (InDir(d) ==> InoAt(s, t.b).dkind == Dir)
    && (Linking(d) ==> InoAt(s, t.a).dkind == File)
    && (Making(d) || d == CPlus ==> InoAt(s, t.a).dkind == t.kind)
    && (d == CEnd && t.kind == File ==> InoAt(s, t.a).dkind == File)
  }

  /** iput is freeing an inode to which there is no other reference and no link. */
  ghost predicate FreeOk(s: State, p: nat) {
    var t := Th(s, p);
    Freeing(t.pc) ==>
      && (forall h {:trigger h in s.hold} :: h in s.hold && s.hold[h] == RegOf(t, t.pc.r) ==> h == Reg(p, t.pc.r))
      && (forall k {:trigger k in s.links} :: k in s.links ==> s.links[k] != RegOf(t, t.pc.r))
      && (t.pc.act != Trunc ==> forall x {:trigger x in s.ents} :: x in s.ents ==> x.dir != RegOf(t, t.pc.r))
  }

  /** A new inode is known to its maker only. */
  ghost predicate MakeOk(s: State, p: nat) {
    var t := Th(s, p);
    Making(Dest(t.pc)) ==>
      && (forall h {:trigger h in s.hold} :: h in s.hold && s.hold[h] == t.a ==> h == Reg(p, A) || Spent(s, h))
      && (forall k {:trigger k in s.links} :: k in s.links && s.links[k] == t.a ==> k == Pend(p))
  }

  ghost predicate ApartOk(s: State, p: nat, q: nat) {
    p != q && Making(Dest(Th(s, p).pc)) && Making(Dest(Th(s, q).pc)) ==> Th(s, p).a != Th(s, q).a
  }

  ghost predicate Dots(s: State, d: nat) { Ent(d, Dot) in s.ents && Ent(d, DotDot) in s.ents }

  /** The entry of a directory that create has made but not yet counted for its "..". */
  ghost predicate Excused(s: State, x: Ent) {
    InoAt(s, x.dir).lock.Some? &&
    var t := Th(s, InoAt(s, x.dir).lock.value);
    t.pc == CPlus && t.b == x.dir && t.name == x.name
  }

  /** An entry that nlink counts: the entry itself, and, for a directory, the ".." in it. */
  ghost predicate PlainOk(s: State, x: Ent, l: Link) {
    && Entry(l.stamp) in s.links && s.links[Entry(l.stamp)] == l.target && Dots(s, x.dir)
    && if InoAt(s, l.target).dkind == Dir then
         && Dots(s, l.target) && s.ents[Ent(l.target, DotDot)].target == x.dir
         && ((Sub(l.stamp) in s.links && s.links[Sub(l.stamp)] == x.dir) || Excused(s, x))
       else Sub(l.stamp) !in s.links
  }

  ghost predicate EntOk(s: State, x: Ent) {
    x in s.ents ==>
      var l := s.ents[x];
      && l.stamp < s.next && InoAt(s, x.dir).dkind == Dir
      && (x.name == Dot ==> l.target == x.dir)
      && (x == Ent(ROOT, DotDot) ==> l.target == ROOT)
      && (x.name.Plain? ==> PlainOk(s, x, l))
  }

  ghost predicate StampOk(s: State, x: Ent, y: Ent) {
    x in s.ents && y in s.ents && s.ents[x].stamp == s.ents[y].stamp ==> x == y
  }

  /** Who relies on "." and ".." being there. */
  predicate Relies(s: State, h: Holder) { h.Base? || (h.r != A && !LostAt(Th(s, h.p).pc, h.r)) }

  ghost predicate DotsOk(s: State, h: Holder) {
    h in s.hold && Relies(s, h) && InoAt(s, s.hold[h]).dkind == Dir ==> Dots(s, s.hold[h])
  }

  /** The entries a thread has in hand. */
  ghost predicate WorkOk(s: State, p: nat) {
    var t := Th(s, p);
    var d := Dest(t.pc);
    var x := Ent(t.b, t.name);
    && (NamesEntry(d) ==> t.name.Plain?)
    && (d.CDot? || d.CDotDot? || d.CPlus? ==> t.kind == Dir)
    && (d.UTest? || d.CPlus? ==> t.name.Plain? && x in s.ents && s.ents[x].target == t.a)
    && (d.CPlus? ==> Sub(s.ents[x].stamp) !in s.links)
    && (d.CDotDot? || (d.CEnt? && t.kind == Dir) ==> Ent(t.a, Dot) in s.ents)
    && (d.CEnt? && t.kind == Dir ==> Ent(t.a, DotDot) in s.ents && s.ents[Ent(t.a, DotDot)].target == t.b)
  }

  ghost predicate RootOk(s: State) {
    Root in s.links && Dots(s, ROOT) && InoAt(s, ROOT).dkind == Dir
  }

  ghost predicate ThreadsOk(s: State) {
    && (forall p: nat {:trigger PlanOk(s, p)} :: PlanOk(s, p))
    && (forall p: nat {:trigger PendOk(s, p)} :: PendOk(s, p))
    && (forall p: nat {:trigger KindOk(s, p)} :: KindOk(s, p))
    && (forall p: nat {:trigger FreeOk(s, p)} :: FreeOk(s, p))
    && (forall p: nat {:trigger MakeOk(s, p)} :: MakeOk(s, p))
    && (forall p: nat {:trigger WorkOk(s, p)} :: WorkOk(s, p))
    && (forall p: nat, q: nat {:trigger ApartOk(s, p, q)} :: ApartOk(s, p, q))
  }

  ghost predicate RegsOk(s: State) {
    && (forall p: nat, r {:trigger HeldOk(s, p, r)} :: HeldOk(s, p, r))
    && (forall p: nat, r {:trigger OwnOk(s, p, r)} :: OwnOk(s, p, r))
    && (forall p: nat, r {:trigger Loaded(s, p, r)} :: Loaded(s, p, r))
  }

  ghost predicate InosOk(s: State) {
    && (forall i: nat {:trigger RefOk(s, i)} :: RefOk(s, i))
    && (forall i: nat {:trigger LockOk(s, i)} :: LockOk(s, i))
    && (forall i: nat {:trigger CountOk(s, i)} :: CountOk(s, i))
    && (forall i: nat {:trigger CacheOk(s, i)} :: CacheOk(s, i))
  }

  ghost predicate HoldsOk(s: State) {
    && (forall h {:trigger HoldOk(s, h)} :: HoldOk(s, h))
    && (forall h {:trigger HoldLive(s, h)} :: HoldLive(s, h))
    && (forall h {:trigger DotsOk(s, h)} :: DotsOk(s, h))
  }

  ghost predicate ToksOk(s: State) {
    && (forall k {:trigger TokOk(s, k)} :: TokOk(s, k))
    && (forall k {:trigger TokLive(s, k)} :: TokLive(s, k))
  }

  ghost predicate EntsOk(s: State) {
    && (forall x {:trigger EntOk(s, x)} :: EntOk(s, x))
    && (forall x, y {:trigger StampOk(s, x, y)} :: StampOk(s, x, y))
    && RootOk(s)
  }

  ghost predicate Inv(s: State) {
    ThreadsOk(s) && RegsOk(s) && InosOk(s) && HoldsOk(s) && ToksOk(s) && EntsOk(s)
  }

  lemma OfThread(s: State, p: nat)
    requires Inv(s)
    ensures PlanOk(s, p) && PendOk(s, p) && KindOk(s, p) && FreeOk(s, p) && MakeOk(s, p) && WorkOk(s, p)
  {
    hide PlanOk, PendOk, KindOk, FreeOk, MakeOk, WorkOk, ApartOk, RegsOk, InosOk, HoldsOk, ToksOk, EntsOk;
  }

  lemma OfTwo(s: State, p: nat, q: nat)
    requires Inv(s)
    ensures ApartOk(s, p, q)
  {
    hide PlanOk, PendOk, KindOk, FreeOk, MakeOk, WorkOk, ApartOk, RegsOk, InosOk, HoldsOk, ToksOk, EntsOk;
  }

  lemma OfReg(s: State, p: nat, r: R)
    requires Inv(s)
    ensures HeldOk(s, p, r) && OwnOk(s, p, r) && Loaded(s, p, r)
  {
    hide HeldOk, OwnOk, Loaded, ThreadsOk, InosOk, HoldsOk, ToksOk, EntsOk;
  }

  lemma OfIno(s: State, i: nat)
    requires Inv(s)
    ensures RefOk(s, i) && LockOk(s, i) && CountOk(s, i) && CacheOk(s, i)
  {
    hide RefOk, LockOk, CountOk, CacheOk, ThreadsOk, RegsOk, HoldsOk, ToksOk, EntsOk;
  }

  lemma OfHold(s: State, h: Holder)
    requires Inv(s)
    ensures HoldOk(s, h) && HoldLive(s, h) && DotsOk(s, h)
  {
    hide HoldOk, HoldLive, DotsOk, ThreadsOk, RegsOk, InosOk, ToksOk, EntsOk;
  }

  lemma OfTok(s: State, k: Tok)
    requires Inv(s)
    ensures TokOk(s, k) && TokLive(s, k)
  {
    hide TokOk, TokLive, ThreadsOk, RegsOk, InosOk, HoldsOk, EntsOk;
  }

  lemma OfEnt(s: State, x: Ent)
    requires Inv(s)
    ensures EntOk(s, x) && RootOk(s)
  {
    hide EntOk, StampOk, RootOk, ThreadsOk, RegsOk, InosOk, HoldsOk, ToksOk;
  }

  lemma OfStamps(s: State, x: Ent, y: Ent)
    requires Inv(s)
    ensures StampOk(s, x, y)
  {
    hide EntOk, StampOk, RootOk, ThreadsOk, RegsOk, InosOk, HoldsOk, ToksOk;
  }

  // ------------------------------------------------------------ one step

  ghost predicate Steps(s: State, p: nat, e: Effect, u: Thread) {
    p < |s.threads| && Inv(s) && Moves(s, Th(s, p), e, u)
  }

  lemma StepParts(s: State, p: nat, e: Effect, u: Thread)
    requires Steps(s, p, e, u)
    ensures p < |s.threads| && Inv(s) && Moves(s, Th(s, p), e, u)
    ensures Enabled(s, e) && Files(s, e) && Handled(Th(s, p), e, u) && u.bits == BitsAfter(Th(s, p).bits, e)
  {
    hide Inv, Moves, Enabled, Files, Handled, BitsAfter, Th;
    Parts(s, Th(s, p), e, u);
  }

  lemma ThAfter(s: State, p: nat, e: Effect, u: Thread, q: nat)
    requires p < |s.threads|
    ensures Th(After(s, p, e, u), q) == if q == p then u else Th(s, q)
  {
  }

  lemma InoAfter(s: State, p: nat, e: Effect, u: Thread, i: nat)
    requires Enabled(s, e)
    ensures InoAt(After(s, p, e, u), i) == if Target(e) == Some(i) then Changed(InoAt(s, i), e, p) else InoAt(s, i)
  {
    hide Changed;
  }

  // ------------------------------------------------------------ references and locks

  /** What becomes of pointer r of a thread. */
  predicate RegTurn(t: Thread, e: Effect, u: Thread, r: R) {
    if ((e.Get? || e.Reuse?) && e.r == r) || (e.Move? && e.to == r) then
      !Held(t.bits, r) && Held(u.bits, r) && RegOf(u, r) == e.i
    else if (e.Drop? || e.Keep? || e.Move?) && e.r == r then Held(t.bits, r) && !Held(u.bits, r) && RegOf(t, r) == e.i
    else Held(u.bits, r) == Held(t.bits, r) && (Held(t.bits, r) ==> RegOf(u, r) == RegOf(t, r))
  }

  lemma RegMoves(t: Thread, e: Effect, u: Thread, r: R)
    requires Handled(t, e, u) && u.bits == BitsAfter(t.bits, e)
    ensures RegTurn(t, e, u, r)
  {
    hide Owns;
  }

  lemma HoldKept(s: State, p: nat, e: Effect, u: Thread, h: Holder)
    requires Steps(s, p, e, u)
    ensures HoldOk(After(s, p, e, u), h)
  {
    hide Steps, Inv, Moves, Handled, BitsAfter, Enabled, InosAfter, EntsAfter, LinksAfter, Held, RegOf, HoldLive,
      DotsOk;
    StepParts(s, p, e, u);
    OfHold(s, h);
    if h.Reg? {
      ThAfter(s, p, e, u, h.p);
      RegMoves(Th(s, p), e, u, h.r);
    }
  }

  lemma HeldKept(s: State, p: nat, e: Effect, u: Thread, q: nat, r: R)
    requires Steps(s, p, e, u)
    ensures HeldOk(After(s, p, e, u), q, r)
  {
    hide Steps, Inv, Moves, Handled, BitsAfter, Enabled, InosAfter, EntsAfter, LinksAfter, Held, RegOf, OwnOk, Loaded,
      Th;
    StepParts(s, p, e, u);
    OfReg(s, q, r);
    ThAfter(s, p, e, u, q);
    if q == p { RegMoves(Th(s, p), e, u, r); }
  }

  lemma RefKept(s: State, p: nat, e: Effect, u: Thread, i: nat)
    requires Steps(s, p, e, u)
    ensures RefOk(After(s, p, e, u), i)
  {
    hide Steps, Inv, Moves, Enabled, InosAfter, EntsAfter, LinksAfter, Pre, Held, RegOf, OwnOk, Loaded, Th, LockOk,
      CountOk, CacheOk, HoldLive, DotsOk, Owns, InoAt;
    StepParts(s, p, e, u);
    OfIno(s, i);
    InoAfter(s, p, e, u, i);
    match e {
      case Get(r, j) => OfHold(s, Reg(p, r)); PreAdd(s.hold, Reg(p, r), j, i);
      case Drop(r, j) => OfReg(s, p, r); PreDel(s.hold, Reg(p, r), i);
      case Move(r, to, j) => OfReg(s, p, r); OfHold(s, Reg(p, to)); PreMove(s.hold, Reg(p, r), Reg(p, to), i);
      case Keep(r, k, j) => OfReg(s, p, r); PreMove(s.hold, Reg(p, r), Base(k), i);
      case Reuse(k, r, j) => OfHold(s, Reg(p, r)); PreMove(s.hold, Base(k), Reg(p, r), i);
      case _ =>
    }
  }

  lemma LockKept(s: State, p: nat, e: Effect, u: Thread, i: nat)
    requires Steps(s, p, e, u)
    ensures LockOk(After(s, p, e, u), i)
  {
    hide Steps, Inv, Moves, InosAfter, EntsAfter, LinksAfter, HoldAfter, Th, RefOk, CountOk, CacheOk, InoAt, HeldOk,
      Loaded, Enabled;
    StepParts(s, p, e, u);
    OfIno(s, i);
    InoAfter(s, p, e, u, i);
    if InoAt(s, i).lock.Some? { ThAfter(s, p, e, u, InoAt(s, i).lock.value); }
    ThAfter(s, p, e, u, p);
    if e.Release? { OfReg(s, p, e.r); }
  }

  /** Which pointers are locked after a step, and that they point where they did. */
  lemma LockedAfter(t: Thread, e: Effect, u: Thread, r: R)
    requires Handled(t, e, u) && u.bits == BitsAfter(t.bits, e) && Locked(u.bits, r)
    requires Locked(t.bits, r) ==> Held(t.bits, r)
    ensures if e.Acquire? && r == e.r then Held(t.bits, r) && RegOf(t, r) == e.i
            else Locked(t.bits, r) && !(e.Release? && r == e.r)
    ensures RegOf(u, r) == RegOf(t, r) && Held(u.bits, r)
    ensures e.Release? ==> RegOf(t, e.r) == e.i && Locked(t.bits, e.r)
  {
    hide Owns;
  }

  lemma OwnKept(s: State, p: nat, e: Effect, u: Thread, q: nat, r: R)
    requires Steps(s, p, e, u)
    ensures OwnOk(After(s, p, e, u), q, r)
  {
    hide Steps, Inv, Moves, InosAfter, EntsAfter, LinksAfter, HoldAfter, Th, InoAt, HeldOk, Loaded, Handled, BitsAfter,
      Locked, Held, RegOf, Owns;
    StepParts(s, p, e, u);
    OfReg(s, q, r);
    ThAfter(s, p, e, u, q);
    var t, v := Th(s, q), Th(After(s, p, e, u), q);
    InoAfter(s, p, e, u, RegOf(v, r));
    EnabledFree(s, e);
    if e.Release? { OfReg(s, p, e.r); Releases(Th(s, p), e, u); }
    if q == p && Locked(u.bits, r) {
      LockedAfter(t, e, u, r);
      forall x | Locked(u.bits, x) && RegOf(u, x) == RegOf(u, r) ensures x == r {
        OfReg(s, p, x);
        LockedAfter(t, e, u, x);
      }
    }
  }

  lemma Releases(t: Thread, e: Effect, u: Thread)
    requires Handled(t, e, u) && e.Release?
    ensures RegOf(t, e.r) == e.i && Locked(t.bits, e.r)
  {
  }

  lemma EnabledFree(s: State, e: Effect)
    requires Enabled(s, e)
    ensures e.Acquire? ==> InoAt(s, e.i).lock == None
  {
  }

  lemma HeldRef(s: State, p: nat, r: R)
    requires Inv(s) && Held(Th(s, p).bits, r)
    ensures var i := RegOf(Th(s, p), r);
            Reg(p, r) in s.hold && s.hold[Reg(p, r)] == i && i < |s.inos| && InoAt(s, i).ref > 0
  {
    hide Inv, OwnOk, Loaded, LockOk, CountOk, CacheOk, Th, Pre;
    var i := RegOf(Th(s, p), r);
    OfReg(s, p, r);
    OfIno(s, i);
    InPre(s.hold, Reg(p, r), i);
  }

  lemma OwnedBy(t: Thread, i: nat) returns (x: R)
    requires Owns(t, i)
    ensures Locked(t.bits, x) && RegOf(t, x) == i
  {
    x := if t.bits.la && t.a == i then A else if t.bits.lb && t.b == i then B else C;
  }

  /** With one reference, the thread's own and not locked by it, nobody has the lock. */
  lemma Sole(s: State, p: nat, r: R)
    requires Inv(s) && Held(Th(s, p).bits, r) && !Locked(Th(s, p).bits, r) && InoAt(s, RegOf(Th(s, p), r)).ref == 1
    ensures InoAt(s, RegOf(Th(s, p), r)).lock == None && Pre(s.hold, RegOf(Th(s, p), r)) == {Reg(p, r)}
  {
    hide Inv, HeldOk, Loaded, CountOk, CacheOk, Th, Pre, RegOf, Held, Locked, Owns, InoAt;
    var i := RegOf(Th(s, p), r);
    HeldRef(s, p, r);
    OfIno(s, i);
    InPre(s.hold, Reg(p, r), i);
    OnlyOne(Pre(s.hold, i), Reg(p, r));
    if InoAt(s, i).lock.Some? {
      var q := InoAt(s, i).lock.value;
      var x := OwnedBy(Th(s, q), i);
      OfReg(s, q, x);
      HeldRef(s, q, x);
      InPre(s.hold, Reg(q, x), i);
    }
  }

  /** An inode that the thread has locked and is not giving up. */
  lemma OwnIno(s: State, p: nat, r: R)
    requires Inv(s) && Locked(Th(s, p).bits, r) && !GivingUp(Th(s, p).pc, r)
    ensures var i := RegOf(Th(s, p), r);
            var o := InoAt(s, i);
            i < |s.inos| && o.lock == Some(p) && o.valid && o.ref > 0 && Agrees(o, DirtOf(Th(s, p), i))
  {
    hide Inv, HeldOk, RefOk, LockOk, CountOk, Th, Held, Locked, RegOf, InoAt, Agrees, DirtOf;
    OfReg(s, p, r);
    HeldRef(s, p, r);
    OfIno(s, RegOf(Th(s, p), r));
  }

  // ------------------------------------------------------------ links

  lemma UnlinkFacts(s: State, p: nat)
    requires Inv(s) && Th(s, p).pc == UTest
    ensures var t := Th(s, p);
            var o := InoAt(s, t.a);
            var x := Ent(t.b, t.name);
            && o.nlink >= 1 && o.kind == o.dkind && t.bits == LOCKED_AB && x in s.ents && s.ents[x].target == t.a
               && x.name.Plain?
            && EntOk(s, x) && InoAt(s, t.b).lock == Some(p) && !Excused(s, x)
  {
    hide Inv, Plan, Dest, Th, InoAt, PendOk, KindOk, FreeOk, MakeOk, HeldOk, Loaded, RefOk, LockOk, CacheOk, Dots,
      RootOk, Leads, Pre;
    var t := Th(s, p);
    OfThread(s, p);
    GripLocks(t);
    DestAt(t.pc);
    var x := Ent(t.b, t.name);
    OfEnt(s, x);
    OfIno(s, t.a);
    InPre(s.links, Entry(s.ents[x].stamp), t.a);
    OwnIno(s, p, A);
    OfReg(s, p, B);
  }

  /** The panics of unlink and ilock are not reached. */
  lemma NoPanic(s: State, p: nat, ch: Choice)
    requires Inv(s) && p < |s.threads| && Code(s, s.threads[p], ch).Some?
    ensures Code(s, s.threads[p], ch).value.next.pc != Panicked
  {
    hide Inv, Code, InoAt, Plan, Dest, PendOk, KindOk, FreeOk, MakeOk, WorkOk, EntOk, Excused, Gripping;
    var t := s.threads[p];
    OfThread(s, p);
    assert t.pc.Do? ==> t.pc.then' != Panicked by {
      DestAt(Panicked);
      if t.pc.Do? { DestDo(t.pc.act, t.pc.r, t.pc.then'); }
    }
    if t.pc == UTest { UnlinkFacts(s, p); }
    if t.pc.Do? && t.pc.act == Lock { LockLive(s, p); }
    Calm(s, t, ch);
  }

  lemma LockLive(s: State, p: nat)
    requires Inv(s) && Th(s, p).pc.Do? && Th(s, p).pc.act == Lock
    ensures InoAt(s, RegOf(Th(s, p), Th(s, p).pc.r)).dkind != Free
  {
    hide Inv, InoAt, Plan, Dest, PendOk, KindOk, FreeOk, MakeOk, WorkOk, Leads, Th, HoldOk, DotsOk;
    var t := Th(s, p);
    OfThread(s, p);
    ThenSimple(t);
    HeldRef(s, p, t.pc.r);
    OfHold(s, Reg(p, t.pc.r));
  }

  /** dirlink of link and create only succeeds under a name other than "." and "..". */
  lemma AddsPlain(s: State, p: nat, e: Effect, u: Thread)
    requires Steps(s, p, e, u) && e.AddEnt?
    ensures var t := Th(s, p);
            e.e.name.Plain? <==> t.pc == LDir || t.pc == CEnt
    ensures e.e !in s.ents && (e.e.name.Plain? ==> e.e.dir == Th(s, p).b && e.target == Th(s, p).a
                                                   && Dots(s, Th(s, p).b))
  {
    hide Steps, Inv, InoAt, Plan, Dest, PendOk, FreeOk, MakeOk, Leads, Th, HoldOk, HoldLive, Handled, BitsAfter,
      UnlockPut, GetTurn, QuietTurn, Expect, Enabled, Moves;
    var t := Th(s, p);
    StepParts(s, p, e, u);
    Parts(s, t, e, u);
    if t.pc.Do? { DoRegs(s, t, e, u); }
    OfThread(s, p);
    DestAt(t.pc);
    if t.pc == LDir || t.pc == CEnt {
      HeldFor(t);
      HeldRef(s, p, B);
      OfHold(s, Reg(p, B));
    }
  }

  /** The entry that unlink erases, and what it counts for. */
  lemma DelFacts(s: State, p: nat, e: Effect, u: Thread)
    requires Steps(s, p, e, u) && e.DelEnt?
    ensures var t, x := Th(s, p), e.e;
            && t.pc == UTest && x == Ent(t.b, t.name) && x.name.Plain? && x in s.ents && s.ents[x].target == t.a
               && t.bits == LOCKED_AB
            && Entry(s.ents[x].stamp) in s.links && s.links[Entry(s.ents[x].stamp)] == t.a
            && (Sub(s.ents[x].stamp) in s.links <==> InoAt(s, t.a).dkind == Dir)
            && (InoAt(s, t.a).dkind == Dir <==> u.pc == UDecDir)
            && (Sub(s.ents[x].stamp) in s.links ==> s.links[Sub(s.ents[x].stamp)] == t.b)
  {
    hide Steps, Inv, InoAt, Plan, Dest, Leads, Th, Handled, BitsAfter, Expect, Enabled, Moves, Excused, Dots, GetTurn,
      QuietTurn, AddTurn, Files;
    var t := Th(s, p);
    StepParts(s, p, e, u);
    Parts(s, t, e, u);
    if t.pc.Do? { DoRegs(s, t, e, u); }
    UnlinkFacts(s, p);
  }

  /** create about to count the ".." of the directory it has entered. */
  lemma PlusFacts(s: State, p: nat, e: Effect, u: Thread)
    requires Steps(s, p, e, u) && e.IncDir?
    ensures var t := Th(s, p);
            && t.pc == CPlus && e.i == t.b && e.e == Ent(t.b, t.name) && e.e in s.ents && e.e.name.Plain?
               && s.ents[e.e].target == t.a
            && Sub(s.ents[e.e].stamp) !in s.links && s.ents[e.e].stamp < s.next && InoAt(s, t.a).dkind == Dir
  {
    hide Steps, Inv, InoAt, Plan, Dest, Leads, Th, Handled, BitsAfter, Expect, Enabled, Moves, Excused, Dots, GetTurn,
      QuietTurn, AddTurn, Files, PendOk, FreeOk, MakeOk, RootOk, PlainOk;
    var t := Th(s, p);
    StepParts(s, p, e, u);
    Parts(s, t, e, u);
    if t.pc.Do? { DoRegs(s, t, e, u); }
    OfThread(s, p);
    DestAt(t.pc);
    OfEnt(s, e.e);
  }

  /** Which of the thread's own tokens are there before a step. */
  lemma OwnToks(s: State, p: nat, e: Effect, u: Thread)
    requires Steps(s, p, e, u)
    ensures PendTurn(Th(s, p), e, u)
    ensures Pend(p) in s.links <==> Pending(Dest(Th(s, p).pc))
    ensures PendDir(p) in s.links <==> Th(s, p).pc == UDecDir
    ensures Pend(p) in s.links ==> s.links[Pend(p)] == Th(s, p).a
    ensures PendDir(p) in s.links ==> s.links[PendDir(p)] == Th(s, p).b
  {
    hide Steps, Inv, Moves, PendTurn, Dest, Pending, Th, PlanOk, KindOk, FreeOk, MakeOk, WorkOk, Handled, Enabled,
      Files, TokLive, BitsAfter;
    StepParts(s, p, e, u);
    Pends(s, Th(s, p), e, u);
    OfThread(s, p);
    OfTok(s, Pend(p));
    OfTok(s, PendDir(p));
  }

  /** The tokens that a counting effect adds. */
  function Added(s: State, p: nat, e: Effect): (ks: set<Tok>) {
    match e
    case Inc(_) => {Pend(p)}
    case SetOne(_) => {Pend(p)}
    case IncDir(_, x) => if x in s.ents then {Sub(s.ents[x].stamp)} else {}
    case AddEnt(_, _) => {Entry(s.next)}
    case DelEnt(_) => {Pend(p), PendDir(p)}
    case _ => {}
  }

  lemma OldTok(s: State, p: nat, e: Effect, k: Tok)
    requires k in LinksAfter(s, e, p) && k !in Added(s, p, e)
    ensures k in s.links && LinksAfter(s, e, p)[k] == s.links[k]
    ensures e.Dec? || e.SetZero? || (e.AddEnt? && e.e.name.Plain?) ==> k != Pend(p)
    ensures e.DecDir? ==> k != PendDir(p)
  {
  }

  lemma NotCounting(s: State, p: nat, e: Effect)
    requires !Counting(e)
    ensures LinksAfter(s, e, p) == s.links
  {
  }

  /** Where a new token points: to an inode that the thread has locked, or to the file it links. */
  lemma NewTok(s: State, p: nat, e: Effect, u: Thread, k: Tok)
    requires Steps(s, p, e, u) && k in LinksAfter(s, e, p) && k in Added(s, p, e) && Counting(e)
    ensures var i, t := LinksAfter(s, e, p)[k], Th(s, p);
            && (k == Pend(p) ==> Pending(Dest(u.pc)) && i == t.a == u.a)
            && (k == PendDir(p) ==> u.pc == UDecDir && i == t.b == u.b)
            && (k.Entry? ==> k.stamp == s.next && e.AddEnt? && i == t.a)
            && (k.Sub? ==> k.stamp < s.next && i == t.b && e.IncDir?)
            && k != Root && (k.Pend? || k.PendDir? ==> k.p == p)
            && (i == t.a || i == t.b)
  {
    hide Steps, Inv, Moves, Dest, Pending, Th, PlanOk, Handled, Enabled, Files, BitsAfter, InoAt, Dots;
    OwnToks(s, p, e, u);
    if e.AddEnt? { AddsPlain(s, p, e, u); }
    if e.DelEnt? { DelFacts(s, p, e, u); }
    if e.IncDir? { PlusFacts(s, p, e, u); }
  }

  lemma TokKept(s: State, p: nat, e: Effect, u: Thread, k: Tok)
    requires Steps(s, p, e, u)
    ensures TokOk(After(s, p, e, u), k)
  {
    hide Steps, Inv, Moves, Dest, Pending, Th, Handled, Enabled, Files, BitsAfter, InosAfter, EntsAfter, HoldAfter,
      LinksAfter, Added, TokLive;
    StepParts(s, p, e, u);
    if k in LinksAfter(s, e, p) {
      if k.Pend? || k.PendDir? { ThAfter(s, p, e, u, k.p); }
      if !Counting(e) {
        NotCounting(s, p, e);
        OfTok(s, k);
        OwnToks(s, p, e, u);
        if e.AddEnt? { AddsPlain(s, p, e, u); }
      } else if k in Added(s, p, e) {
        NewTok(s, p, e, u, k);
      } else {
        OldTok(s, p, e, k);
        OfTok(s, k);
        OwnToks(s, p, e, u);
        if e.AddEnt? { AddsPlain(s, p, e, u); }
        if e.DelEnt? { DelFacts(s, p, e, u); }
      }
    }
  }

  lemma PendKept(s: State, p: nat, e: Effect, u: Thread, q: nat)
    requires Steps(s, p, e, u)
    ensures PendOk(After(s, p, e, u), q)
  {
    hide Steps, Inv, Moves, Dest, Pending, Th, Handled, Enabled, Files, BitsAfter, InosAfter, EntsAfter, HoldAfter,
      KindOk, FreeOk, MakeOk, WorkOk, PlanOk, InoAt, Dots;
    StepParts(s, p, e, u);
    ThAfter(s, p, e, u, q);
    OfThread(s, q);
    if q == p {
      OwnToks(s, p, e, u);
      if e.AddEnt? { AddsPlain(s, p, e, u); }
      if e.DelEnt? { DelFacts(s, p, e, u); }
    }
  }

  /** By how much an effect moves the nlink of inode i. */
  function Delta(e: Effect, i: nat): (d: int) {
    match e
    case Inc(j) => if i == j then 1 else 0
    case SetOne(j) => if i == j then 1 else 0
    case IncDir(j, _) => if i == j then 1 else 0
    case Dec(j) => if i == j then -1 else 0
    case SetZero(j) => if i == j then -1 else 0
    case DecDir(j) => if i == j then -1 else 0
    case _ => 0
  }

  lemma LinkCount(s: State, p: nat, e: Effect, u: Thread, i: nat)
    requires Steps(s, p, e, u)
    ensures |Pre(LinksAfter(s, e, p), i)| == |Pre(s.links, i)| + Delta(e, i)
  {
    hide Steps, Inv, Moves, Pre, Dest, Pending, Th, InoAt, Dots;
    OwnToks(s, p, e, u);
    if !Counting(e) { NotCounting(s, p, e); }
    match e {
      case Inc(j) => PreAdd(s.links, Pend(p), j, i);
      case SetOne(j) => PreAdd(s.links, Pend(p), j, i);
      case Dec(j) => PreDel(s.links, Pend(p), i);
      case SetZero(j) => PreDel(s.links, Pend(p), i);
      case DecDir(j) => PreDel(s.links, PendDir(p), i);
      case IncDir(j, x) => PlusFacts(s, p, e, u); PreAdd(s.links, Sub(s.ents[x].stamp), j, i);
      case AddEnt(x, j) => AddCount(s, p, e, u, i);
      case DelEnt(x) => DelCount(s, p, e, u, i);
      case _ =>
    }
  }

  lemma NewStamp(s: State)
    requires Inv(s)
    ensures Entry(s.next) !in s.links && Sub(s.next) !in s.links
  {
    hide Inv, TokLive;
    OfTok(s, Entry(s.next));
    OfTok(s, Sub(s.next));
  }

  lemma AddCount(s: State, p: nat, e: Effect, u: Thread, i: nat)
    requires Steps(s, p, e, u) && e.AddEnt?
    ensures |Pre(LinksAfter(s, e, p), i)| == |Pre(s.links, i)|
  {
    hide Steps, Inv, Moves, Pre, Dest, Pending, Th, Dots, Handled, Files, Enabled, BitsAfter;
    StepParts(s, p, e, u);
    AddsPlain(s, p, e, u);
    OwnToks(s, p, e, u);
    if e.e.name.Plain? {
      NewStamp(s);
      PreMove(s.links, Pend(p), Entry(s.next), i);
    }
  }

  lemma DelCount(s: State, p: nat, e: Effect, u: Thread, i: nat)
    requires Steps(s, p, e, u) && e.DelEnt?
    ensures |Pre(LinksAfter(s, e, p), i)| == |Pre(s.links, i)|
  {
    hide Steps, Inv, Moves, Pre, Dest, Pending, Th, InoAt;
    DelFacts(s, p, e, u);
    OwnToks(s, p, e, u);
    var l := s.ents[e.e];
    PreMove(s.links, Entry(l.stamp), Pend(p), i);
    var m := Handed(s.links, Entry(l.stamp), Pend(p), l.target);
    if Sub(l.stamp) in m { PreMove(m, Sub(l.stamp), PendDir(p), i); }
  }

  // ------------------------------------------------------------ the itable and the disk

  /** Effects that change an inode under its lock. */
  predicate Owned(e: Effect) {
    Target(e).Some? && !e.Get? && !e.Drop? && !e.Acquire? && !e.Release? && !e.Claim?
  }

  /** The inode a thread works on under its lock: locked by it, read, and in use. */
  lemma OwnTarget(s: State, p: nat, e: Effect, u: Thread)
    requires Steps(s, p, e, u) && Owned(e)
    ensures var o := InoAt(s, e.i); o.lock == Some(p) && o.valid && o.ref > 0 && Agrees(o, DirtOf(Th(s, p), e.i))
  {
    hide Steps, Inv, Moves, Agrees, DirtOf, Owns, InoAt, Th, BitsAfter, Files, Enabled, FreeTurn;
    StepParts(s, p, e, u);
    var x := OwnedBy(Th(s, p), e.i);
    Stages(s, Th(s, p), e, u, x);
    OwnIno(s, p, x);
  }

  /** create's assignments of 1 and 0 to nlink move it by one. */
  lemma NewNlink(s: State, p: nat, e: Effect, u: Thread)
    requires Steps(s, p, e, u) && (e.SetOne? || e.SetZero?)
    ensures Nlink(InoAt(s, e.i)) == if e.SetOne? then 0 else 1
  {
    hide Steps, Inv, Moves, Pending, Dest, Th, InoAt, Nlink, Pre, PlanOk, PendOk, KindOk, FreeOk, WorkOk, RefOk,
      LockOk, CacheOk, Spent;
    var t := Th(s, p);
    OwnToks(s, p, e, u);
    MakesNew(s, p, e, u);
    assert Inv(s) by { StepParts(s, p, e, u); }
    OfThread(s, p);
    OfIno(s, e.i);
    if e.SetOne? {
      NonePre(s.links, e.i);
    } else {
      InPre(s.links, Pend(p), e.i);
      OnePre(s.links, e.i, Pend(p));
    }
  }

  lemma OnePre<K>(m: map<K, nat>, i: nat, x: K)
    requires x in m && m[x] == i && forall k {:trigger k in m} :: k in m && m[k] == i ==> k == x
    ensures |Pre(m, i)| == 1
  {
    assert Pre(m, i) == {x};
  }

  lemma MakesNew(s: State, p: nat, e: Effect, u: Thread)
    requires Steps(s, p, e, u) && (e.SetOne? || e.SetZero?)
    ensures Making(Dest(Th(s, p).pc)) && e.i == Th(s, p).a
  {
    hide Steps, Inv, Plan, Leads, Handled, Th, GetTurn, QuietTurn, AddTurn, InoAt, UnlockPut, Enabled, Files, Dest,
      Moves, BitsAfter;
    StepParts(s, p, e, u);
    Parts(s, Th(s, p), e, u);
    if Th(s, p).pc.Do? { DoRegs(s, Th(s, p), e, u); }
    DestAt(Th(s, p).pc);
  }

  /** The last reference to an inode finds it as it is on disk. */
  lemma LastDrop(s: State, p: nat, e: Effect, u: Thread)
    requires Steps(s, p, e, u) && e.Drop?
    ensures var o := InoAt(s, e.i); o.ref > 0 && (o.ref == 1 ==> o.lock == None && (o.valid ==> o.nlink == o.dnlink))
  {
    hide Steps, Inv, Moves, Th, InoAt, Pre, RefOk, LockOk, CountOk, RegOf, Held, Locked, BitsAfter, Files, Enabled;
    StepParts(s, p, e, u);
    HeldRef(s, p, e.r);
    if InoAt(s, e.i).ref == 1 {
      Sole(s, p, e.r);
      OfIno(s, e.i);
    }
  }

  lemma HeldLock(s: State, p: nat, e: Effect, u: Thread)
    requires Steps(s, p, e, u) && e.Acquire?
    ensures var o := InoAt(s, e.i); o.ref > 0 && o.lock == None && (o.valid || o.dkind != Free)
  {
    hide Steps, Inv, Moves, Th, InoAt, RegOf, Held, Locked, BitsAfter, Files, Plan, Leads, Turn, Enabled;
    StepParts(s, p, e, u);
    EnabledFree(s, e);
    HeldRef(s, p, e.r);
    AcquireLive(s, Th(s, p), e, u);
  }

  lemma AcquireLive(s: State, t: Thread, e: Effect, u: Thread)
    requires Moves(s, t, e, u) && e.Acquire?
    ensures InoAt(s, e.i).valid || InoAt(s, e.i).dkind != Free
  {
    hide Moves, InoAt, RegOf, Handled, BitsAfter, Files, Plan, Leads, Enabled;
    Parts(s, t, e, u);
  }

  /** A free inode has no links, and iput gives up only such an inode. */
  lemma Unclaimed(s: State, p: nat, e: Effect, u: Thread)
    requires Steps(s, p, e, u) && e.Claim?
    ensures var o := InoAt(s, e.i);
            Nlink(o) == 0 && o.dkind == Free && Th(s, p).kind == e.kind != Free && Th(s, p).pc == CAlloc
            && Dest(Th(s, p).pc) == CAlloc
    ensures forall k {:trigger k in s.links} :: k in s.links ==> s.links[k] != e.i
  {
    hide Steps, Inv, Moves, Th, InoAt, Nlink, Pre, PlanOk, PendOk, FreeOk, MakeOk, WorkOk, RefOk, LockOk, CacheOk,
      TokOk, Dest, Handled, Files, Enabled, BitsAfter;
    StepParts(s, p, e, u);
    Phases(s, Th(s, p), e, u);
    OfThread(s, p);
    DestAt(Th(s, p).pc);
    OfIno(s, e.i);
    forall k | k in s.links ensures s.links[k] != e.i { OfTok(s, k); }
    NonePre(s.links, e.i);
  }

  lemma GivenUp(s: State, p: nat, e: Effect, u: Thread)
    requires Steps(s, p, e, u) && e.Invalidate?
    ensures InoAt(s, e.i).nlink == 0 == InoAt(s, e.i).dnlink
  {
    hide Steps, Inv, Moves, Th, InoAt, DirtOf, Handled, Files, Enabled, BitsAfter;
    StepParts(s, p, e, u);
    OwnTarget(s, p, e, u);
    DirtHere(s, Th(s, p), e, u, e.i);
  }

  lemma NlinkKept(s: State, p: nat, e: Effect, u: Thread, i: nat)
    requires Steps(s, p, e, u)
    ensures Nlink(InoAt(After(s, p, e, u), i)) == Nlink(InoAt(s, i)) + Delta(e, i)
  {
    hide Steps, Inv, Moves, Th, InoAt, DirtOf, Handled, Files, Enabled, BitsAfter, Agrees, After;
    StepParts(s, p, e, u);
    InoAfter(s, p, e, u, i);
    if Target(e) == Some(i) {
      if Owned(e) { OwnTarget(s, p, e, u); }
      match e {
        case SetOne(_) => NewNlink(s, p, e, u);
        case SetZero(_) => NewNlink(s, p, e, u);
        case Drop(_, _) => LastDrop(s, p, e, u);
        case Acquire(_, _) => HeldLock(s, p, e, u);
        case Invalidate(_) => GivenUp(s, p, e, u);
        case Claim(_, _) => Unclaimed(s, p, e, u);
        case _ =>
      }
    }
  }

  lemma CountKept(s: State, p: nat, e: Effect, u: Thread, i: nat)
    requires Steps(s, p, e, u)
    ensures CountOk(After(s, p, e, u), i)
  {
    hide Steps, Inv, InoAt, Nlink, Pre, Delta, LinksAfter, InosAfter, EntsAfter, HoldAfter, RefOk, LockOk, CacheOk,
      Moves, Handled, Files, Enabled, BitsAfter;
    StepParts(s, p, e, u);
    OfIno(s, i);
    NlinkKept(s, p, e, u, i);
    LinkCount(s, p, e, u, i);
  }

  /** The inode that iput empties has no links. */
  lemma FreedNlink(s: State, p: nat, e: Effect, u: Thread)
    requires Steps(s, p, e, u) && e.Wipe?
    ensures InoAt(s, e.i).nlink == 0
  {
    hide Steps, Inv, Moves, Th, InoAt, Agrees, Handled, Files, Enabled, BitsAfter, Pre, PlanOk, PendOk, KindOk, MakeOk,
      WorkOk, RefOk, LockOk, CacheOk, FreeTurn, DirtOf;
    StepParts(s, p, e, u);
    Stages(s, Th(s, p), e, u, A);
    OfThread(s, p);
    OfIno(s, e.i);
    NonePre(s.links, e.i);
    OwnTarget(s, p, e, u);
  }

  /** A free inode is in the itable only while iput gives it up. */
  lemma ClaimStored(s: State, i: nat)
    requires Inv(s) && InoAt(s, i).dkind == Free && InoAt(s, i).ref > 0 && InoAt(s, i).valid
    ensures InoAt(s, i).lock.Some? && DirtAt(s, i) == Stored
  {
    hide Inv, InoAt, Th, RefOk, LockOk, CountOk, PendOk, KindOk, FreeOk, MakeOk, WorkOk, HoldOk, DotsOk, Plan, Leads;
    OfIno(s, i);
    if DirtAt(s, i) == Cleared {
      var q := InoAt(s, i).lock.value;
      OfThread(s, q);
      ThenSimple(Th(s, q));
      HeldRef(s, q, Th(s, q).pc.r);
      OfHold(s, Reg(q, Th(s, q).pc.r));
    }
  }

  lemma CacheElse(s: State, p: nat, e: Effect, u: Thread, j: nat)
    requires Steps(s, p, e, u) && Target(e) != Some(j)
    ensures CacheOk(After(s, p, e, u), j)
  {
    hide Steps, Inv, Moves, Th, InoAt, DirtOf, Handled, Files, Enabled, BitsAfter, RefOk, LockOk, CountOk, After;
    StepParts(s, p, e, u);
    InoAfter(s, p, e, u, j);
    OfIno(s, j);
    DirtElse(s, Th(s, p), e, u, j);
    if InoAt(s, j).lock.Some? { ThAfter(s, p, e, u, InoAt(s, j).lock.value); }
  }

  lemma CacheOwn(s: State, p: nat, e: Effect, u: Thread)
    requires Steps(s, p, e, u) && Owned(e)
    ensures CacheOk(After(s, p, e, u), e.i)
  {
    hide Steps, Inv, Moves, Th, InoAt, DirtOf, Handled, Files, Enabled, BitsAfter, After;
    StepParts(s, p, e, u);
    InoAfter(s, p, e, u, e.i);
    ThAfter(s, p, e, u, p);
    DirtHere(s, Th(s, p), e, u, e.i);
    OwnTarget(s, p, e, u);
    if e.Wipe? { FreedNlink(s, p, e, u); }
  }

  lemma CacheOther(s: State, p: nat, e: Effect, u: Thread)
    requires Steps(s, p, e, u) && (e.Get? || e.Drop? || e.Acquire? || e.Claim?)
    ensures CacheOk(After(s, p, e, u), e.i)
  {
    hide Steps, Inv, Moves, Th, InoAt, DirtOf, Handled, Files, Enabled, BitsAfter, After, RefOk, LockOk, CountOk, Nlink;
    StepParts(s, p, e, u);
    InoAfter(s, p, e, u, e.i);
    OfIno(s, e.i);
    DirtHere(s, Th(s, p), e, u, e.i);
    ThAfter(s, p, e, u, p);
    if InoAt(s, e.i).lock.Some? { ThAfter(s, p, e, u, InoAt(s, e.i).lock.value); }
    if e.Acquire? { HeldLock(s, p, e, u); }
    if e.Claim? {
      Unclaimed(s, p, e, u);
      if InoAt(s, e.i).ref > 0 && InoAt(s, e.i).valid { ClaimStored(s, e.i); }
    }
  }

  lemma CacheRelease(s: State, p: nat, e: Effect, u: Thread)
    requires Steps(s, p, e, u) && e.Release?
    ensures CacheOk(After(s, p, e, u), e.i)
  {
    hide Steps, Inv, Moves, Th, InoAt, DirtOf, Handled, Files, Enabled, BitsAfter, After, RefOk, LockOk, CountOk,
      Locked, RegOf, HeldOk, FreeTurn, Held;
    StepParts(s, p, e, u);
    InoAfter(s, p, e, u, e.i);
    OfIno(s, e.i);
    Releases(Th(s, p), e, u);
    OfReg(s, p, e.r);
    DirtHere(s, Th(s, p), e, u, e.i);
  }

  lemma CacheKept(s: State, p: nat, e: Effect, u: Thread, j: nat)
    requires Steps(s, p, e, u)
    ensures CacheOk(After(s, p, e, u), j)
  {
    hide Steps, CacheOk, After;
    if Target(e) != Some(j) {
      CacheElse(s, p, e, u, j);
    } else if Owned(e) {
      CacheOwn(s, p, e, u);
    } else if e.Release? {
      CacheRelease(s, p, e, u);
    } else {
      CacheOther(s, p, e, u);
    }
  }

  lemma LoadedKept(s: State, p: nat, e: Effect, u: Thread, q: nat, r: R)
    requires Steps(s, p, e, u)
    ensures Loaded(After(s, p, e, u), q, r)
  {
    hide Steps, Inv, Moves, Th, InoAt, Handled, Files, Enabled, BitsAfter, After, HeldOk, Locked, RegOf, Held, Loaded;
    ThAfter(s, p, e, u, q) by { StepParts(s, p, e, u); }
    if q == p { OwnLoaded(s, p, e, u, r); } else { OtherLoaded(s, p, e, u, q, r); }
  }

  lemma OtherLoaded(s: State, p: nat, e: Effect, u: Thread, q: nat, r: R)
    requires Steps(s, p, e, u) && q != p
    ensures Loaded(After(s, p, e, u), q, r)
  {
    hide Steps, Inv, Moves, Th, InoAt, Handled, Files, Enabled, BitsAfter, After, HeldOk, Locked, RegOf, Held, Agrees;
    StepParts(s, p, e, u);
    ThAfter(s, p, e, u, q);
    if Locked(Th(s, q).bits, r) {
      OfReg(s, q, r);
      HeldRef(s, q, r);
      InoAfter(s, p, e, u, RegOf(Th(s, q), r));
      if Owned(e) { OwnTarget(s, p, e, u); }
      if e.Acquire? { HeldLock(s, p, e, u); }
    }
  }

  lemma OwnLoaded(s: State, p: nat, e: Effect, u: Thread, r: R)
    requires Steps(s, p, e, u)
    ensures Loaded(After(s, p, e, u), p, r)
  {
    hide Steps, Inv, Moves, Th, InoAt, Handled, Files, Enabled, BitsAfter, After, HeldOk, Locked, RegOf, Held, Agrees,
      FreeTurn;
    StepParts(s, p, e, u);
    ThAfter(s, p, e, u, p);
    if Locked(u.bits, r) {
      OfReg(s, p, r);
      LockedAfter(Th(s, p), e, u, r);
      HeldRef(s, p, r);
      InoAfter(s, p, e, u, RegOf(u, r));
      Stages(s, Th(s, p), e, u, r);
      if e.Acquire? { HeldLock(s, p, e, u); }
      if e.Invalidate? {
        ThenLocked(s, p, e, u);
        OfReg(s, p, Th(s, p).pc.r);
      }
    }
  }

  lemma ThenLocked(s: State, p: nat, e: Effect, u: Thread)
    requires Steps(s, p, e, u) && e.Invalidate? && Th(s, p).pc.Do? && Th(s, p).pc.act == Inval
    ensures Locked(Th(s, p).bits, Th(s, p).pc.r)
  {
    hide Steps, Inv, Moves, Th, Handled, Files, Enabled, BitsAfter, Plan, Leads;
    StepParts(s, p, e, u);
    Parts(s, Th(s, p), e, u);
    ThenSimple(Th(s, p));
  }

  // ------------------------------------------------------------ types

  /** An inode that a thread gets a reference to is known already, by a link or by another reference. */
  ghost predicate Known(s: State, p: nat, i: nat) {
    || (exists k :: k in s.links && s.links[k] == i && !k.Pend? && !k.PendDir?)
    || (exists h :: h in s.hold && s.hold[h] == i && !Spent(s, h) && (h.Base? || h == Reg(p, B)))
  }

  lemma KnownTok(s: State, p: nat, i: nat, k: Tok)
    requires k in s.links && s.links[k] == i && !k.Pend? && !k.PendDir?
    ensures Known(s, p, i)
  {
  }

  lemma KnownHold(s: State, p: nat, i: nat, h: Holder)
    requires h in s.hold && s.hold[h] == i && !Spent(s, h) && (h.Base? || h == Reg(p, B))
    ensures Known(s, p, i)
  {
  }

  lemma KnownLive(s: State, p: nat, i: nat)
    requires Inv(s) && Known(s, p, i)
    ensures InoAt(s, i).dkind != Free
  {
    hide Inv, InoAt, TokOk, HoldOk, DotsOk, Spent;
    if k :| k in s.links && s.links[k] == i && !k.Pend? && !k.PendDir? {
      OfTok(s, k);
    } else {
      var h :| h in s.hold && s.hold[h] == i && !Spent(s, h) && (h.Base? || h == Reg(p, B));
      OfHold(s, h);
    }
  }

  /** The root, or an inode held by an open file. */
  lemma SourceKnown(s: State, p: nat, i: nat)
    requires Inv(s) && Sources(s, i)
    ensures Known(s, p, i) && (InoAt(s, i).dkind == Dir ==> Dots(s, i))
  {
    hide Inv, InoAt, EntOk, Dots, Known, HoldOk, HoldLive;
    if i == ROOT {
      OfEnt(s, Ent(ROOT, Dot));
      OfTok(s, Root);
      KnownTok(s, p, i, Root);
    } else {
      var k :| Base(k) in s.hold && s.hold[Base(k)] == i;
      OfHold(s, Base(k));
      KnownHold(s, p, i, Base(k));
    }
  }

  /** An inode seen in an entry of a directory that the thread has locked. */
  lemma ShownKnown(s: State, p: nat, n: Nm, i: nat)
    requires Inv(s) && Shows(s, Th(s, p).b, n, i)
    requires var t := Th(s, p); t.bits.lb && t.bits.hb && !t.pc.Do? && t.pc != CPlus && InoAt(s, t.b).dkind == Dir
    ensures Known(s, p, i) && (InoAt(s, i).dkind == Dir ==> Dots(s, i))
  {
    hide Inv, InoAt, Dots, Known, HoldOk, HoldLive, Th, RootOk, Excused, Linked;
    var b := Th(s, p).b;
    var x := Ent(b, n);
    OfEnt(s, x);
    match n {
      case Plain(_) => KnownTok(s, p, i, Entry(s.ents[x].stamp));
      case Dot =>
        HeldRef(s, p, B);
        OfHold(s, Reg(p, B));
        KnownHold(s, p, i, Reg(p, B));
      case DotDot =>
        if b == ROOT { SourceKnown(s, p, i); } else { ParentKnown(s, p, i); }
    }
  }

  /** The ".." of a directory that still has an entry is counted by its parent. */
  lemma ParentKnown(s: State, p: nat, i: nat)
    requires Inv(s) && Shows(s, Th(s, p).b, DotDot, i) && Th(s, p).b != ROOT
    requires var t := Th(s, p); t.bits.lb && t.pc != CPlus && InoAt(s, t.b).dkind == Dir
    ensures Known(s, p, i) && Dots(s, i)
  {
    hide Inv, InoAt, Dots, Known, Th, RootOk, Excused;
    var b := Th(s, p).b;
    var x :| x in s.ents && x.name.Plain? && s.ents[x].target == b;
    OfEnt(s, x);
    if Excused(s, x) { NotExcused(s, p, x); }
    KnownTok(s, p, i, Sub(s.ents[x].stamp));
  }

  lemma NotExcused(s: State, p: nat, x: Ent)
    requires Inv(s) && Th(s, p).bits.lb && Th(s, p).pc != CPlus && x in s.ents && s.ents[x].target == Th(s, p).b
    ensures !Excused(s, x)
  {
    hide Inv, InoAt, Th, Plan, Dest, PendOk, KindOk, FreeOk, MakeOk, HeldOk, Loaded, Leads;
    if Excused(s, x) {
      var z := InoAt(s, x.dir).lock.value;
      OfThread(s, z);
      DestAt(Th(s, z).pc);
      GripLocks(Th(s, z));
      OfReg(s, z, A);
      OfReg(s, p, B);
    }
  }

  /** Whatever a thread gets a reference to, except its own new inode, is known already. */
  lemma GetKnown(s: State, p: nat, e: Effect, u: Thread)
    requires Steps(s, p, e, u) && e.Get?
    ensures (Th(s, p).pc == CIget && e.i == Th(s, p).a && e.r == A && Dest(Th(s, p).pc) == CIget)
            || (Known(s, p, e.i) && (e.r != A && InoAt(s, e.i).dkind == Dir ==> Dots(s, e.i)))
  {
    hide Steps, Inv, Moves, InoAt, Dots, Known, Th, Shows, Sources, Handled, Files, Enabled, BitsAfter, Plan, Leads,
      Dest, QuietTurn, AddTurn, UnlockPut, Simple;
    var t := Th(s, p);
    StepParts(s, p, e, u);
    Parts(s, t, e, u);
    if t.pc.Do? { DoRegs(s, t, e, u); }
    DestAt(t.pc);
    match t.pc {
      case Out => SourceKnown(s, p, e.i);
      case LWalk => SourceKnown(s, p, e.i);
      case WTest(g) => var n :| Shows(s, t.b, n, e.i); WalkDir(s, p); ShownKnown(s, p, n, e.i);
      case UName => InDirNow(s, p); ShownKnown(s, p, u.name, e.i);
      case CName => var n :| Shows(s, t.b, n, e.i); InDirNow(s, p); ShownKnown(s, p, n, e.i);
      case _ =>
    }
  }

  /** What namex has found to be a directory is one. */
  lemma WalkDir(s: State, p: nat)
    requires Inv(s) && Th(s, p).pc.WTest? && InoAt(s, Th(s, p).b).kind == Dir
    ensures Th(s, p).bits.lb && Th(s, p).bits.hb && InoAt(s, Th(s, p).b).dkind == Dir
  {
    hide Inv, InoAt, Th, Plan, Leads, Dest, PendOk, KindOk, FreeOk, MakeOk, WorkOk;
    OfThread(s, p);
    PlanIs(Th(s, p).pc, Th(s, p).bits);
    OwnIno(s, p, B);
  }

  lemma InDirNow(s: State, p: nat)
    requires Inv(s) && (Th(s, p).pc == UName || Th(s, p).pc == CName)
    ensures Th(s, p).bits.lb && Th(s, p).bits.hb && InoAt(s, Th(s, p).b).dkind == Dir
  {
    hide Inv, InoAt, Th, Plan, Leads, Dest, PendOk, FreeOk, MakeOk, WorkOk;
    OfThread(s, p);
    PlanIs(Th(s, p).pc, Th(s, p).bits);
    DestAt(Th(s, p).pc);
  }

  /** How the type of an inode on disk can change. */
  lemma DkindAfter(s: State, p: nat, e: Effect, u: Thread, i: nat)
    requires Steps(s, p, e, u)
    ensures var k, k' := InoAt(s, i).dkind, InoAt(After(s, p, e, u), i).dkind;
            || k' == k || (e.Claim? && e.i == i && k == Free && k' == e.kind != Free)
            || (Saves(Th(s, p), e) && e.i == i)
  {
    hide Steps, Inv, Moves, Th, InoAt, DirtOf, Handled, Files, Enabled, BitsAfter, After, Nlink;
    StepParts(s, p, e, u);
    InoAfter(s, p, e, u, i);
    if Target(e) == Some(i) {
      DirtHere(s, Th(s, p), e, u, i);
      if e.Claim? { Unclaimed(s, p, e, u); }
      if e.Update? { OwnTarget(s, p, e, u); }
    }
  }

  /** An inode that iput writes down as free is freed by its only holder, and has no link or entry. */
  lemma SaveFacts(s: State, p: nat, e: Effect, u: Thread)
    requires Steps(s, p, e, u) && Saves(Th(s, p), e)
    ensures Reg(p, Th(s, p).pc.r) in s.hold && s.hold[Reg(p, Th(s, p).pc.r)] == e.i
    ensures forall h {:trigger h in s.hold} :: h in s.hold && s.hold[h] == e.i ==> h == Reg(p, Th(s, p).pc.r)
    ensures forall k {:trigger k in s.links} :: k in s.links ==> s.links[k] != e.i
    ensures forall x {:trigger x in s.ents} :: x in s.ents ==> x.dir != e.i
    ensures !SpentAt(Th(s, p).pc, Th(s, p).pc.r)
  {
    hide Steps, Inv, Moves, Th, InoAt, Handled, Files, Enabled, BitsAfter, Plan, Leads, PendOk, KindOk, MakeOk, WorkOk;
    StepParts(s, p, e, u);
    OfThread(s, p);
    ThenSimple(Th(s, p));
    HeldRef(s, p, Th(s, p).pc.r);
  }

  /** The inodes that a counting step points its new tokens to are held by the thread. */
  lemma NewTokHeld(s: State, p: nat, e: Effect, u: Thread, k: Tok)
    requires Steps(s, p, e, u) && k in LinksAfter(s, e, p) && k in Added(s, p, e) && Counting(e)
    ensures var i := LinksAfter(s, e, p)[k];
            exists r :: Reg(p, r) in s.hold && s.hold[Reg(p, r)] == i && !Spent(s, Reg(p, r))
  {
    hide Steps, Inv, Moves, Dest, Th, InoAt, Handled, Files, Enabled, BitsAfter, Plan, Leads, Pending, LinksAfter;
    StepParts(s, p, e, u);
    NewTok(s, p, e, u, k);
    CountHeld(s, Th(s, p), e, u);
    if k.PendDir? || k.Sub? { HeldRef(s, p, B); } else { HeldRef(s, p, A); }
  }

  lemma TokLiveKept(s: State, p: nat, e: Effect, u: Thread, k: Tok)
    requires Steps(s, p, e, u)
    ensures TokLive(After(s, p, e, u), k)
  {
    hide Steps, Inv, Moves, Th, InoAt, Handled, Files, Enabled, BitsAfter, InosAfter, EntsAfter, HoldAfter, LinksAfter,
      Added, Spent, TokOk, HoldOk, DotsOk, Saves;
    if k in LinksAfter(s, e, p) {
      StepParts(s, p, e, u);
      var i := LinksAfter(s, e, p)[k];
      DkindAfter(s, p, e, u, i);
      if Counting(e) && k in Added(s, p, e) {
        NewTokHeld(s, p, e, u, k);
        var r :| Reg(p, r) in s.hold && s.hold[Reg(p, r)] == i && !Spent(s, Reg(p, r));
        OfHold(s, Reg(p, r));
        if Saves(Th(s, p), e) { NoSaves(s, p, e); }
      } else {
        if Counting(e) { OldTok(s, p, e, k); } else { NotCounting(s, p, e); }
        OfTok(s, k);
        if Saves(Th(s, p), e) { SaveFacts(s, p, e, u); }
      }
    }
  }

  lemma NoSaves(s: State, p: nat, e: Effect)
    requires Counting(e)
    ensures !Saves(Th(s, p), e)
  {
  }

  lemma HoldLiveKept(s: State, p: nat, e: Effect, u: Thread, h: Holder)
    requires Steps(s, p, e, u)
    ensures HoldLive(After(s, p, e, u), h)
  {
    hide Steps, Inv, Moves, Th, InoAt, Handled, Files, Enabled, BitsAfter, InosAfter, EntsAfter, LinksAfter, SpentAt,
      Saves, HoldOk, DotsOk, Known, Dots, Held, Locked, RegOf, FreeTurn, StageTurn;
    if h in HoldAfter(s.hold, e, p) {
      StepParts(s, p, e, u);
      var i := HoldAfter(s.hold, e, p)[h];
      DkindAfter(s, p, e, u, i);
      if e.Get? && h == Reg(p, e.r) {
        GetLive(s, p, e, u);
      } else {
        HoldCame(s, p, e, u, h);
      }
    }
  }

  lemma GetLive(s: State, p: nat, e: Effect, u: Thread)
    requires Steps(s, p, e, u) && e.Get?
    ensures InoAt(s, e.i).dkind != Free && !Saves(Th(s, p), e)
  {
    hide Steps, Inv, Moves, Th, InoAt, Handled, Files, Enabled, BitsAfter, Known, Dots, Dest, PlanOk, PendOk, FreeOk,
      MakeOk, WorkOk;
    StepParts(s, p, e, u);
    GetKnown(s, p, e, u);
    if Known(s, p, e.i) { KnownLive(s, p, e.i); } else { OfThread(s, p); }
  }

  /** A reference that is not new was one before, of the same inode; and it is not the one being freed. */
  lemma HoldCame(s: State, p: nat, e: Effect, u: Thread, h: Holder)
    requires Steps(s, p, e, u) && h in HoldAfter(s.hold, e, p) && !(e.Get? && h == Reg(p, e.r))
    ensures !Spent(After(s, p, e, u), h) ==>
              InoAt(s, HoldAfter(s.hold, e, p)[h]).dkind != Free
              && !(Saves(Th(s, p), e) && e.i == HoldAfter(s.hold, e, p)[h])
  {
    hide Steps, Inv, Moves, Th, InoAt, Handled, Files, Enabled, BitsAfter, InosAfter, EntsAfter, LinksAfter, SpentAt,
      HoldOk, DotsOk, Held, Locked, RegOf, FreeTurn;
    StepParts(s, p, e, u);
    if h.Reg? { ThAfter(s, p, e, u, h.p); }
    if e.Move? || e.Keep? || e.Reuse? { MovesHeld(s, p, e, u); }
    if h in s.hold {
      OfHold(s, h);
      if h.Reg? && h.p == p { Stages(s, Th(s, p), e, u, h.r); }
    }
    if Saves(Th(s, p), e) {
      SaveFacts(s, p, e, u);
      Stages(s, Th(s, p), e, u, Th(s, p).pc.r);
    }
  }

  /** What a step moves was a live reference. */
  lemma MovesHeld(s: State, p: nat, e: Effect, u: Thread)
    requires Steps(s, p, e, u) && (e.Move? || e.Keep? || e.Reuse?)
    ensures InoAt(s, e.i).dkind != Free && !Th(s, p).pc.Do? && !Saves(Th(s, p), e)
  {
    hide Steps, Inv, Moves, Th, InoAt, Handled, Files, Enabled, BitsAfter, HoldOk, DotsOk, Held, Locked, RegOf, Plan,
      Leads, Turn, DoTurn;
    StepParts(s, p, e, u);
    Parts(s, Th(s, p), e, u);
    if Th(s, p).pc.Do? { DoRegs(s, Th(s, p), e, u); }
    var h := MovedFrom(s, p, e, u);
    OfHold(s, h);
  }

  lemma MovedFrom(s: State, p: nat, e: Effect, u: Thread) returns (h: Holder)
    requires Steps(s, p, e, u) && (e.Move? || e.Keep? || e.Reuse?)
    ensures h in s.hold && s.hold[h] == e.i && h == if e.Reuse? then Base(e.k) else Reg(p, e.r)
  {
    hide Steps, Inv, Moves, Th, Enabled, BitsAfter, Held, Locked, RegOf;
    StepParts(s, p, e, u);
    if e.Reuse? {
      h := Base(e.k);
    } else {
      h := Reg(p, e.r);
      HeldRef(s, p, e.r);
    }
  }

  /** The type of an inode with a live reference stays, unless it is that reference that iput frees. */
  lemma TypeStays(s: State, p: nat, e: Effect, u: Thread, q: nat, r: R)
    requires Steps(s, p, e, u) && Held(Th(s, q).bits, r) && !SpentAt(Th(s, q).pc, r)
    requires !(q == p && Saves(Th(s, p), e) && Th(s, p).pc.r == r)
    ensures InoAt(After(s, p, e, u), RegOf(Th(s, q), r)).dkind == InoAt(s, RegOf(Th(s, q), r)).dkind != Free
  {
    hide Steps, Inv, Moves, Th, InoAt, Handled, Files, Enabled, BitsAfter, After, SpentAt, HoldOk, DotsOk, Held, RegOf;
    StepParts(s, p, e, u);
    HeldRef(s, q, r);
    OfHold(s, Reg(q, r));
    DkindAfter(s, p, e, u, RegOf(Th(s, q), r));
    if Saves(Th(s, p), e) { SaveFacts(s, p, e, u); }
  }

  /** The type of a new inode stays while it is being made. */
  lemma NewStays(s: State, p: nat, e: Effect, u: Thread, q: nat)
    requires Steps(s, p, e, u) && Making(Dest(Th(s, q).pc)) && !(q == p && Saves(Th(s, p), e))
    ensures InoAt(After(s, p, e, u), Th(s, q).a).dkind == InoAt(s, Th(s, q).a).dkind
  {
    hide Steps, Inv, Moves, Th, InoAt, Handled, Files, Enabled, BitsAfter, After, SpentAt, PlanOk, PendOk, FreeOk,
      WorkOk, Dest;
    StepParts(s, p, e, u);
    OfThread(s, q);
    DkindAfter(s, p, e, u, Th(s, q).a);
    if Saves(Th(s, p), e) { SaveFacts(s, p, e, u); }
  }

  lemma OtherKind(s: State, p: nat, e: Effect, u: Thread, q: nat)
    requires Steps(s, p, e, u) && q != p
    ensures KindOk(After(s, p, e, u), q)
  {
    hide Steps, Inv, Moves, Th, InoAt, Handled, Files, Enabled, BitsAfter, After, PendOk, FreeOk, MakeOk, WorkOk, Dest,
      InDir, Linking, Making, Plan, Leads, Saves;
    StepParts(s, p, e, u);
    ThAfter(s, p, e, u, q);
    OfThread(s, q);
    var t := Th(s, q);
    var d := Dest(t.pc);
    HeldFor(t);
    if InDir(d) { NotSpent(t, B); TypeStays(s, p, e, u, q, B); }
    if Making(d) { NewStays(s, p, e, u, q); }
    if Linking(d) || d == CPlus || d == CEnd { NotSpent(t, A); TypeStays(s, p, e, u, q, A); }
  }

  /** What a thread still needs it has not given up. */
  lemma NotSpent(t: Thread, r: R)
    requires Planned(t)
    ensures InDir(Dest(t.pc)) && r == B ==> !SpentAt(t.pc, r) && !(t.pc.Do? && t.pc.r == r && t.pc.act == Save)
    ensures (Linking(Dest(t.pc)) || Dest(t.pc) == CPlus || Dest(t.pc) == CEnd) && r == A ==>
              !SpentAt(t.pc, r) && !(t.pc.Do? && t.pc.r == r && t.pc.act == Save)
  {
    hide Plan, Dest, InDir, Linking, Making;
    if t.pc.Do? && (SpentAt(t.pc, r) || t.pc.act == Save) && t.pc.r == r { NotPutting(t, r); }
  }

  lemma OwnKind(s: State, p: nat, e: Effect, u: Thread)
    requires Steps(s, p, e, u)
    ensures KindOk(After(s, p, e, u), p)
  {
    hide Steps, Inv, Moves, Th, InoAt, Handled, Files, Enabled, BitsAfter, After, PendOk, FreeOk, MakeOk, WorkOk, Dest,
      InDir, Linking, Making, Plan, Leads, Saves, Nlink;
    StepParts(s, p, e, u);
    ThAfter(s, p, e, u, p);
    OfThread(s, p);
    Phases(s, Th(s, p), e, u);
    var t := Th(s, p);
    var d, v := Dest(t.pc), Dest(u.pc);
    HeldFor(t);
    if InDir(v) { OwnDir(s, p, e, u); }
    if Linking(v) || (v == CEnd && u.kind == File) { OwnFile(s, p, e, u); }
    if Making(v) || v == CPlus { OwnNew(s, p, e, u); }
  }

  lemma OwnDir(s: State, p: nat, e: Effect, u: Thread)
    requires Steps(s, p, e, u) && InDir(Dest(u.pc))
    ensures InoAt(After(s, p, e, u), u.b).dkind == Dir
  {
    hide Steps, Inv, Moves, Th, InoAt, Handled, Files, Enabled, BitsAfter, After, PendOk, FreeOk, MakeOk, WorkOk, Dest,
      InDir, Linking, Making, Plan, Leads;
    StepParts(s, p, e, u);
    OfThread(s, p);
    var t := Th(s, p);
    Phases(s, t, e, u);
    HeldFor(t);
    NotSpent(t, B);
    if !InDir(Dest(t.pc)) { WalkDir(s, p); }
    TypeStays(s, p, e, u, p, B);
  }

  lemma FileSeen(s: State, p: nat)
    requires Inv(s) && (Th(s, p).pc == LTest || Th(s, p).pc == CGot)
    ensures Th(s, p).bits.ha && InoAt(s, Th(s, p).a).kind == InoAt(s, Th(s, p).a).dkind != Free
  {
    hide Inv, InoAt, Th, Plan, Leads, Dest, PendOk, KindOk, FreeOk, MakeOk, WorkOk;
    OfThread(s, p);
    PlanIs(Th(s, p).pc, Th(s, p).bits);
    OwnIno(s, p, A);
  }

  lemma OwnFile(s: State, p: nat, e: Effect, u: Thread)
    requires Steps(s, p, e, u) && (Linking(Dest(u.pc)) || (Dest(u.pc) == CEnd && u.kind == File))
    ensures InoAt(After(s, p, e, u), u.a).dkind == File
  {
    hide Steps, Inv, Moves, Th, InoAt, Handled, Files, Enabled, BitsAfter, After, PendOk, FreeOk, MakeOk, WorkOk, Dest,
      InDir, Plan, Leads, Expect;
    StepParts(s, p, e, u);
    OfThread(s, p);
    var t := Th(s, p);
    Phases(s, t, e, u);
    HeldFor(t);
    NotSpent(t, A);
    if t.pc == LTest || t.pc == CGot { FileSeen(s, p); }
    if Making(Dest(t.pc)) && Dest(u.pc) == CEnd { MakerHolds(s, p, e, u); }
    TypeStays(s, p, e, u, p, A);
  }

  /** A maker that goes on to its end holds its inode. */
  lemma MakerHolds(s: State, p: nat, e: Effect, u: Thread)
    requires Steps(s, p, e, u) && Making(Dest(Th(s, p).pc)) && !Making(Dest(u.pc)) && Dest(u.pc) != Out
    ensures Th(s, p).bits.ha && !Th(s, p).pc.Do?
  {
    hide Steps, Inv, Moves, Th, InoAt, Handled, Files, Enabled, BitsAfter, Plan, Leads, Dest, Shows, Sources, Linking,
      InDir;
    StepParts(s, p, e, u);
    var t := Th(s, p);
    Parts(s, t, e, u);
    if t.pc.Do? {
      DoDest(s, t, e, u);
    } else {
      DestAt(t.pc);
      if !u.pc.Do? { DestAt(u.pc); }
      HeldFor(t);
    }
  }

  lemma OwnNew(s: State, p: nat, e: Effect, u: Thread)
    requires Steps(s, p, e, u) && (Making(Dest(u.pc)) || Dest(u.pc) == CPlus)
    ensures InoAt(After(s, p, e, u), u.a).dkind == u.kind
  {
    hide Steps, Inv, Moves, Th, InoAt, Handled, Files, Enabled, BitsAfter, After, PendOk, FreeOk, MakeOk, WorkOk, Dest,
      InDir, Linking, Plan, Nlink;
    StepParts(s, p, e, u);
    OfThread(s, p);
    var t := Th(s, p);
    Phases(s, t, e, u);
    if e.Claim? {
      DestAt(t.pc);
      InoAfter(s, p, e, u, e.i);
    } else if Making(Dest(t.pc)) {
      DestAt(CEnt);
      GripSaves(t, e);
      NewStays(s, p, e, u, p);
    } else {
      DestAt(CEnt);
      HeldFor(t);
      NotSpent(t, A);
      TypeStays(s, p, e, u, p, A);
    }
  }

  lemma GripSaves(t: Thread, e: Effect)
    requires Leads(t.pc) && Gripping(Dest(t.pc))
    ensures !Saves(t, e)
  {
  }

  lemma KindKept(s: State, p: nat, e: Effect, u: Thread, q: nat)
    requires Steps(s, p, e, u)
    ensures KindOk(After(s, p, e, u), q)
  {
    hide Steps, KindOk, After;
    if q == p { OwnKind(s, p, e, u); } else { OtherKind(s, p, e, u, q); }
  }

  // ------------------------------------------------------------ who knows an inode

  /** Nobody but q has a live reference to i, and nothing but q's token links to it. */
  ghost predicate OnlyKnownTo(s: State, q: nat, i: nat) {
    && (forall h {:trigger h in s.hold} :: h in s.hold && s.hold[h] == i ==> (h.Reg? && h.p == q) || Spent(s, h))
    && (forall k {:trigger k in s.links} :: k in s.links && s.links[k] == i ==> k == Pend(q))
  }

  /** Others cannot get to know such an inode. */
  lemma StaysUnknown(s: State, p: nat, e: Effect, u: Thread, q: nat, i: nat)
    requires Steps(s, p, e, u) && q != p && OnlyKnownTo(s, q, i) && !(Th(s, p).pc == CIget && Th(s, p).a == i)
    ensures forall h {:trigger h in HoldAfter(s.hold, e, p)} ::
              h in HoldAfter(s.hold, e, p) && HoldAfter(s.hold, e, p)[h] == i ==> h in s.hold && s.hold[h] == i
    ensures forall k {:trigger k in LinksAfter(s, e, p)} ::
              k in LinksAfter(s, e, p) && LinksAfter(s, e, p)[k] == i ==> k in s.links && s.links[k] == i
  {
    hide Steps, Inv, Moves, LinksAfter, HoldAfter, Added;
    forall h | h in HoldAfter(s.hold, e, p) && HoldAfter(s.hold, e, p)[h] == i ensures h in s.hold && s.hold[h] == i {
      UnknownHold(s, p, e, u, q, i, h);
    }
    forall k | k in LinksAfter(s, e, p) && LinksAfter(s, e, p)[k] == i ensures k in s.links && s.links[k] == i {
      UnknownTok(s, p, e, u, q, i, k);
    }
  }

  lemma UnknownHold(s: State, p: nat, e: Effect, u: Thread, q: nat, i: nat, h: Holder)
    requires Steps(s, p, e, u) && q != p && OnlyKnownTo(s, q, i) && !(Th(s, p).pc == CIget && Th(s, p).a == i)
    requires h in HoldAfter(s.hold, e, p) && HoldAfter(s.hold, e, p)[h] == i
    ensures h in s.hold && s.hold[h] == i
  {
    hide Steps, Inv, Moves, InoAt, Dots, Dest;
    if e.Get? && h == Reg(p, e.r) { GetKnown(s, p, e, u); }
    if (e.Move? && h == Reg(p, e.to)) || (e.Keep? && h == Base(e.k)) || (e.Reuse? && h == Reg(p, e.r)) {
      var g := MovedFrom(s, p, e, u);
      MovesHeld(s, p, e, u);
    }
  }

  lemma UnknownTok(s: State, p: nat, e: Effect, u: Thread, q: nat, i: nat, k: Tok)
    requires Steps(s, p, e, u) && q != p && OnlyKnownTo(s, q, i)
    requires k in LinksAfter(s, e, p) && LinksAfter(s, e, p)[k] == i
    ensures k in s.links && s.links[k] == i
  {
    hide Steps, Inv, Moves, LinksAfter, Added, Th;
    if !Counting(e) {
      NotCounting(s, p, e);
    } else if k in Added(s, p, e) {
      NewTokHeld(s, p, e, u, k);
    } else {
      OldTok(s, p, e, k);
    }
  }

  lemma OtherFree(s: State, p: nat, e: Effect, u: Thread, q: nat)
    requires Steps(s, p, e, u) && q != p
    ensures FreeOk(After(s, p, e, u), q)
  {
    hide Steps, Inv, Moves, Th, Handled, Files, Enabled, BitsAfter, InosAfter, LinksAfter, HoldAfter, PlanOk, PendOk,
      KindOk, MakeOk, WorkOk, EntsAfter, Dest;
    StepParts(s, p, e, u);
    ThAfter(s, p, e, u, q);
    OfThread(s, q);
    var t := Th(s, q);
    if Freeing(t.pc) {
      var i := RegOf(t, t.pc.r);
      if Th(s, p).pc == CIget { MakerNotFreed(s, p, q); }
      StaysUnknown(s, p, e, u, q, i);
      if t.pc.act != Trunc { NoNewEntries(s, p, e, u, q); }
    }
  }

  /** An inode being freed is not one being made. */
  lemma MakerNotFreed(s: State, p: nat, q: nat)
    requires Inv(s) && p != q && Th(s, p).pc == CIget && Freeing(Th(s, q).pc)
    ensures Th(s, p).a != RegOf(Th(s, q), Th(s, q).pc.r)
  {
    hide Inv, Th, PendOk, KindOk, WorkOk, FreeOk, Plan, Leads, Dest;
    OfThread(s, p);
    OfThread(s, q);
    DestAt(Th(s, p).pc);
    ThenSimple(Th(s, q));
    HeldRef(s, q, Th(s, q).pc.r);
  }

  /** Nobody adds an entry to a directory that another thread has locked. */
  lemma NoNewEntries(s: State, p: nat, e: Effect, u: Thread, q: nat)
    requires Steps(s, p, e, u) && q != p && Freeing(Th(s, q).pc)
    ensures forall x {:trigger x in EntsAfter(s, e)} ::
              x in EntsAfter(s, e) && x.dir == RegOf(Th(s, q), Th(s, q).pc.r) ==> x in s.ents
  {
    hide Steps, Inv, Moves, Th, Files, Enabled, BitsAfter, PendOk, KindOk, WorkOk, FreeOk, MakeOk, Plan, Leads, Held,
      Locked, RegOf, HeldOk, Loaded, Owns, InoAt;
    StepParts(s, p, e, u);
    OfThread(s, q);
    ThenSimple(Th(s, q));
    OfReg(s, q, Th(s, q).pc.r);
    if e.AddEnt? {
      var x := OwnedBy(Th(s, p), e.e.dir);
      OfReg(s, p, x);
    }
  }

  /** iput decides to free: one reference, and a count that is true. */
  lemma OwnFree(s: State, p: nat, e: Effect, u: Thread)
    requires Steps(s, p, e, u)
    ensures FreeOk(After(s, p, e, u), p)
  {
    hide Steps, Inv, Moves, Th, Files, Enabled, BitsAfter, InosAfter, PlanOk, PendOk, KindOk, MakeOk, WorkOk, InoAt,
      StageTurn, Handled, RegOf;
    StepParts(s, p, e, u);
    ThAfter(s, p, e, u, p);
    OfThread(s, p);
    Stages(s, Th(s, p), e, u, A);
    if Freeing(u.pc) && u.pc.act == Trunc { FreeStarts(s, p, e, u); }
  }

  lemma FreeStarts(s: State, p: nat, e: Effect, u: Thread)
    requires Steps(s, p, e, u) && e.Acquire? && InoAt(s, e.i).ref == 1 && InoAt(s, e.i).valid
             && InoAt(s, e.i).nlink == 0
    ensures forall h {:trigger h in s.hold} :: h in s.hold && s.hold[h] == e.i ==> h == Reg(p, e.r)
    ensures forall k {:trigger k in s.links} :: k in s.links ==> s.links[k] != e.i
  {
    hide Steps, Inv, Moves, Th, Files, Enabled, BitsAfter, InoAt, RefOk, LockOk, CacheOk, Held, Locked, RegOf, Pre;
    StepParts(s, p, e, u);
    Sole(s, p, e.r);
    OfIno(s, e.i);
    forall h | h in s.hold && s.hold[h] == e.i ensures h == Reg(p, e.r) { InPre(s.hold, h, e.i); }
    forall k | k in s.links ensures s.links[k] != e.i {
      if s.links[k] == e.i { InPre(s.links, k, e.i); }
    }
  }

  lemma OtherMake(s: State, p: nat, e: Effect, u: Thread, q: nat)
    requires Steps(s, p, e, u) && q != p
    ensures MakeOk(After(s, p, e, u), q)
  {
    hide Steps, Inv, Moves, Th, Handled, Files, Enabled, BitsAfter, InosAfter, LinksAfter, HoldAfter, PlanOk, PendOk,
      KindOk, FreeOk, WorkOk, EntsAfter, Dest, SpentAt, Making;
    StepParts(s, p, e, u);
    ThAfter(s, p, e, u, q);
    OfThread(s, q);
    var t := Th(s, q);
    if Making(Dest(t.pc)) {
      if Th(s, p).pc == CIget { MakersApart(s, p, q); }
      StaysUnknown(s, p, e, u, q, t.a);
      var m := HoldAfter(s.hold, e, p);
      forall h | h in m && m[h] == t.a ensures h == Reg(q, A) || Spent(After(s, p, e, u), h) {
        assert h in s.hold;
        if h != Reg(q, A) { SpentStays(s, p, e, u, h); }
      }
    }
  }

  lemma MakersApart(s: State, p: nat, q: nat)
    requires Inv(s) && p != q && Th(s, p).pc == CIget && Making(Dest(Th(s, q).pc))
    ensures Th(s, p).a != Th(s, q).a
  {
    hide Inv, Th, Dest;
    OfTwo(s, p, q);
    DestAt(Th(s, p).pc);
  }

  /** A reference that has been given up stays so until it is dropped. */
  lemma SpentStays(s: State, p: nat, e: Effect, u: Thread, h: Holder)
    requires Steps(s, p, e, u) && Spent(s, h) && h in HoldAfter(s.hold, e, p)
    ensures Spent(After(s, p, e, u), h)
  {
    hide Steps, Inv, Moves, Th, Handled, Files, Enabled, BitsAfter, After, SpentAt, FreeTurn;
    StepParts(s, p, e, u);
    ThAfter(s, p, e, u, h.p);
    if h.p == p { Stages(s, Th(s, p), e, u, h.r); }
  }

  lemma OwnMake(s: State, p: nat, e: Effect, u: Thread)
    requires Steps(s, p, e, u)
    ensures MakeOk(After(s, p, e, u), p)
  {
    hide Steps, Inv, Moves, Th, Handled, Files, Enabled, BitsAfter, InosAfter, LinksAfter, HoldAfter, PlanOk, PendOk,
      KindOk, FreeOk, WorkOk, EntsAfter, Dest, SpentAt, Making, InoAt;
    StepParts(s, p, e, u);
    ThAfter(s, p, e, u, p);
    Phases(s, Th(s, p), e, u);
    if Making(Dest(u.pc)) {
      var m, l := HoldAfter(s.hold, e, p), LinksAfter(s, e, p);
      forall h | h in m && m[h] == u.a ensures h == Reg(p, A) || Spent(After(s, p, e, u), h) {
        OwnMakeHold(s, p, e, u, h);
      }
      forall k | k in l && l[k] == u.a ensures k == Pend(p) { OwnMakeTok(s, p, e, u, k); }
    }
  }

  lemma OwnMakeHold(s: State, p: nat, e: Effect, u: Thread, h: Holder)
    requires Steps(s, p, e, u) && Making(Dest(u.pc)) && h in HoldAfter(s.hold, e, p)
             && HoldAfter(s.hold, e, p)[h] == u.a
    ensures h == Reg(p, A) || Spent(After(s, p, e, u), h)
  {
    hide Steps, Inv, Moves, Th, Handled, Files, Enabled, BitsAfter, After, PlanOk, PendOk, KindOk, FreeOk, WorkOk,
      Dest, SpentAt, Making, InoAt, Nlink, HoldOk, DotsOk, InDir, Linking;
    StepParts(s, p, e, u);
    Phases(s, Th(s, p), e, u);
    MakeGets(s, p, e, u);
    assert h == Reg(p, A) || h in s.hold;
    if h != Reg(p, A) {
      if e.Claim? {
        Unclaimed(s, p, e, u);
        OfHold(s, h);
      } else {
        OfThread(s, p);
      }
      if Spent(s, h) { SpentStays(s, p, e, u, h); }
    }
  }

  /** While making an inode a thread gets no reference but the one to that inode. */
  lemma MakeGets(s: State, p: nat, e: Effect, u: Thread)
    requires Steps(s, p, e, u) && Making(Dest(u.pc))
    ensures !e.Move? && !e.Keep? && !e.Reuse? && (e.Get? ==> e.r == A)
    ensures e.Claim? ==> Dest(Th(s, p).pc) == CAlloc && u.a == e.i
    ensures !e.Claim? ==> Making(Dest(Th(s, p).pc)) && u.a == Th(s, p).a
    ensures Added(s, p, e) <= {Pend(p), Entry(s.next)} && (e.AddEnt? ==> !e.e.name.Plain?)
  {
    hide Steps, Inv, Moves, Th, Files, Enabled, BitsAfter, Plan, Leads, Dest, Shows, Sources, InoAt, UnlockPut, Held,
      Locked, Owns;
    StepParts(s, p, e, u);
    var t := Th(s, p);
    Parts(s, t, e, u);
    if t.pc.Do? {
      DoDest(s, t, e, u);
      DoRegs(s, t, e, u);
    } else {
      DestAt(t.pc);
      if !u.pc.Do? { DestAt(u.pc); }
      DestFound(t.pc);
    }
  }

  lemma OwnMakeTok(s: State, p: nat, e: Effect, u: Thread, k: Tok)
    requires Steps(s, p, e, u) && Making(Dest(u.pc)) && k in LinksAfter(s, e, p) && LinksAfter(s, e, p)[k] == u.a
    ensures k == Pend(p)
  {
    hide Steps, Inv, Moves, Th, Handled, Files, Enabled, BitsAfter, PlanOk, PendOk, KindOk, FreeOk, WorkOk, Dest,
      SpentAt, Making, InoAt, Nlink, LinksAfter, Added, Spent;
    StepParts(s, p, e, u);
    MakeGets(s, p, e, u);
    if Counting(e) && k in Added(s, p, e) {
      assert k == Pend(p) || k == Entry(s.next);
      NewTok(s, p, e, u, k);
    } else {
      if Counting(e) { OldTok(s, p, e, k); } else { NotCounting(s, p, e); }
      if e.Claim? { Unclaimed(s, p, e, u); } else { OfThread(s, p); }
    }
  }

  lemma FreeKept(s: State, p: nat, e: Effect, u: Thread, q: nat)
    requires Steps(s, p, e, u)
    ensures FreeOk(After(s, p, e, u), q)
  {
    hide Steps, FreeOk, After;
    if q == p { OwnFree(s, p, e, u); } else { OtherFree(s, p, e, u, q); }
  }

  lemma MakeKept(s: State, p: nat, e: Effect, u: Thread, q: nat)
    requires Steps(s, p, e, u)
    ensures MakeOk(After(s, p, e, u), q)
  {
    hide Steps, MakeOk, After;
    if q == p { OwnMake(s, p, e, u); } else { OtherMake(s, p, e, u, q); }
  }

  /** Two threads never make the same inode. */
  lemma ApartKept(s: State, p: nat, e: Effect, u: Thread, q: nat, q': nat)
    requires Steps(s, p, e, u)
    ensures ApartOk(After(s, p, e, u), q, q')
  {
    hide Steps, Inv, Moves, Th, Handled, Files, Enabled, BitsAfter, After, PlanOk, PendOk, FreeOk, MakeOk, WorkOk,
      Dest, Making, InoAt, Nlink, Added;
    StepParts(s, p, e, u);
    ThAfter(s, p, e, u, q);
    ThAfter(s, p, e, u, q');
    OfTwo(s, q, q');
    if (q == p || q' == p) && q != q' && Making(Dest(u.pc)) {
      MakeGets(s, p, e, u);
      Phases(s, Th(s, p), e, u);
      if e.Claim? {
        Unclaimed(s, p, e, u);
        OfThread(s, q);
        OfThread(s, q');
        OutNotMaking(Th(s, q));
        OutNotMaking(Th(s, q'));
      }
    }
  }

  lemma OutNotMaking(t: Thread)
    ensures Making(Dest(t.pc)) ==> Dest(t.pc) != Out
  {
  }

  // ------------------------------------------------------------ entries

  /** How the entries change. */
  ghost predicate EntsTurn(s: State, p: nat, e: Effect) {
    var m := EntsAfter(s, e);
    && (forall x {:trigger x in m} :: x in m ==> (x in s.ents && m[x] == s.ents[x])
                                                 || (e.AddEnt? && x == e.e && m[x] == Link(e.target, s.next)))
    && (forall x {:trigger x in s.ents} :: x in s.ents ==>
          (x in m && m[x] == s.ents[x]) || (e.DelEnt? && x == e.e) || (e.Truncate? && x.dir == e.i))
  }

  lemma EntsMove(s: State, p: nat, e: Effect)
    requires e.AddEnt? ==> e.e !in s.ents
    ensures EntsTurn(s, p, e)
  {
  }

  lemma EntsStep(s: State, p: nat, e: Effect, u: Thread)
    requires Steps(s, p, e, u)
    ensures EntsTurn(s, p, e) && (e.DelEnt? ==> e.e.name.Plain?) && (e.AddEnt? ==> e.e !in s.ents)
  {
    hide Steps, Inv, EntsTurn, Th, InoAt, Dots;
    if e.AddEnt? { AddsPlain(s, p, e, u); }
    if e.DelEnt? { DelFacts(s, p, e, u); }
    EntsMove(s, p, e);
  }

  /** A truncated inode is one that iput frees: no link to it, and no reference but its own. */
  lemma TruncFacts(s: State, p: nat, e: Effect, u: Thread)
    requires Steps(s, p, e, u) && e.Truncate?
    ensures Th(s, p).pc.Do? && e.i == RegOf(Th(s, p), Th(s, p).pc.r) && LostAt(u.pc, Th(s, p).pc.r)
    ensures forall h {:trigger h in s.hold} :: h in s.hold && s.hold[h] == e.i ==> h == Reg(p, Th(s, p).pc.r)
    ensures forall k {:trigger k in s.links} :: k in s.links ==> s.links[k] != e.i
  {
    hide Steps, Inv, Moves, Th, Handled, Files, Enabled, BitsAfter, PlanOk, PendOk, KindOk, MakeOk, WorkOk, FreeTurn,
      RegOf, LostAt;
    StepParts(s, p, e, u);
    Stages(s, Th(s, p), e, u, A);
    OfThread(s, p);
  }

  /** "." and ".." stay as long as a link or another reference does. */
  lemma DotsStay(s: State, p: nat, e: Effect, u: Thread, d: nat)
    requires Steps(s, p, e, u) && Dots(s, d) && !(e.Truncate? && e.i == d)
    ensures Dots(After(s, p, e, u), d) && EntsAfter(s, e)[Ent(d, DotDot)] == s.ents[Ent(d, DotDot)]
  {
    hide Steps, InosAfter, LinksAfter, HoldAfter, EntsAfter;
    EntsStep(s, p, e, u);
    assert Ent(d, Dot) in s.ents && Ent(d, DotDot) in s.ents;
  }

  lemma DotsKept(s: State, p: nat, e: Effect, u: Thread, h: Holder)
    requires Steps(s, p, e, u)
    ensures DotsOk(After(s, p, e, u), h)
  {
    hide Steps, Inv, Moves, Th, InoAt, Handled, Files, Enabled, BitsAfter, InosAfter, EntsAfter, LinksAfter, Dots,
      LostAt, HoldOk, HoldLive, RegOf;
    var a := After(s, p, e, u);
    if h in a.hold && Relies(a, h) && InoAt(a, a.hold[h]).dkind == Dir {
      StepParts(s, p, e, u);
      var i := a.hold[h];
      DotsBefore(s, p, e, u, h);
      if e.Truncate? {
        TruncFacts(s, p, e, u);
        if h.Reg? { ThAfter(s, p, e, u, h.p); }
      }
      DotsStay(s, p, e, u, i);
    }
  }

  /** Who relies on "." and ".." after a step could rely on them before. */
  lemma DotsBefore(s: State, p: nat, e: Effect, u: Thread, h: Holder)
    requires Steps(s, p, e, u) && h in HoldAfter(s.hold, e, p) && Relies(After(s, p, e, u), h)
    requires InoAt(After(s, p, e, u), HoldAfter(s.hold, e, p)[h]).dkind == Dir
    ensures Dots(s, HoldAfter(s.hold, e, p)[h])
  {
    hide Steps, Inv, Moves, Th, InoAt, Handled, Files, Enabled, BitsAfter, After, Dots, HoldOk, RegOf, Known, Dest,
      FreeTurn, LostAt, SpentAt, Spent;
    var i := HoldAfter(s.hold, e, p)[h];
    StepParts(s, p, e, u);
    DkindAfter(s, p, e, u, i);
    if h.Reg? { ThAfter(s, p, e, u, h.p); }
    if e.Get? && h == Reg(p, e.r) {
      GetKnown(s, p, e, u);
    } else if (e.Move? && h == Reg(p, e.to)) || (e.Keep? && h == Base(e.k)) {
      MovedDots(s, p, e, u);
    } else if !(e.Reuse? && h == Reg(p, e.r)) {
      assert h in s.hold && s.hold[h] == i;
      OldDots(s, p, e, u, h);
    } else {
      ReuseA(s, p, e, u);
    }
  }

  lemma ReuseA(s: State, p: nat, e: Effect, u: Thread)
    requires Steps(s, p, e, u) && e.Reuse?
    ensures e.r == A
  {
    hide Steps, Inv, Moves, Th, InoAt, Handled, Files, Enabled, BitsAfter, Plan, Leads, QuietTurn, GetTurn, AddTurn;
    StepParts(s, p, e, u);
    Parts(s, Th(s, p), e, u);
    if Th(s, p).pc.Do? { DoRegs(s, Th(s, p), e, u); }
  }

  lemma MovedDots(s: State, p: nat, e: Effect, u: Thread)
    requires Steps(s, p, e, u) && (e.Move? || e.Keep?) && (e.Move? ==> e.to != A)
    ensures InoAt(After(s, p, e, u), e.i).dkind == Dir ==> Dots(s, e.i)
  {
    hide Steps, Inv, Moves, Th, InoAt, Handled, Files, Enabled, BitsAfter, After, Dots, HoldOk, HoldLive, RegOf, Plan,
      Leads, QuietTurn, GetTurn, AddTurn, Dest, PlanOk, PendOk, FreeOk, MakeOk, WorkOk;
    StepParts(s, p, e, u);
    Parts(s, Th(s, p), e, u);
    if Th(s, p).pc.Do? { DoRegs(s, Th(s, p), e, u); }
    DkindAfter(s, p, e, u, e.i);
    MovesHeld(s, p, e, u);
    var g := MovedFrom(s, p, e, u);
    OfHold(s, g);
    OfThread(s, p);
    DestAt(Th(s, p).pc);
    KeepsFile(s, p, e, u);
  }

  /** What create leaves open is a file. */
  lemma KeepsFile(s: State, p: nat, e: Effect, u: Thread)
    requires Steps(s, p, e, u) && (e.Move? || e.Keep?)
    ensures e.Keep? && e.r == A ==> InoAt(s, e.i).dkind == File
    ensures e.Move? && e.to != A ==> e.r == C
    ensures e.Keep? ==> e.r == A || e.r == B
  {
    hide Steps, Inv, Moves, Th, InoAt, Files, Enabled, BitsAfter, Plan, Leads, QuietTurn, GetTurn, AddTurn, Dest,
      PlanOk, PendOk, FreeOk, MakeOk, WorkOk, Held, Locked, Owns, UnlockPut;
    StepParts(s, p, e, u);
    Parts(s, Th(s, p), e, u);
    if Th(s, p).pc.Do? { DoRegs(s, Th(s, p), e, u); }
    OfThread(s, p);
    DestAt(Th(s, p).pc);
  }

  lemma OldDots(s: State, p: nat, e: Effect, u: Thread, h: Holder)
    requires Steps(s, p, e, u) && h in HoldAfter(s.hold, e, p) && h in s.hold && HoldAfter(s.hold, e, p)[h] == s.hold[h]
    requires Relies(After(s, p, e, u), h) && InoAt(After(s, p, e, u), s.hold[h]).dkind == Dir
    requires !(e.Move? && h == Reg(p, e.to)) && !(e.Reuse? && h == Reg(p, e.r)) && !(e.Get? && h == Reg(p, e.r))
    ensures Dots(s, s.hold[h])
  {
    hide Steps, Inv, Moves, Th, InoAt, Handled, Files, Enabled, BitsAfter, After, Dots, HoldOk, RegOf, FreeTurn;
    StepParts(s, p, e, u);
    OfHold(s, h);
    DkindAfter(s, p, e, u, s.hold[h]);
    if h.Reg? {
      ThAfter(s, p, e, u, h.p);
      if h.p == p { Stages(s, Th(s, p), e, u, h.r); }
    }
    if Saves(Th(s, p), e) {
      SaveFacts(s, p, e, u);
      Stages(s, Th(s, p), e, u, Th(s, p).pc.r);
    }
  }

  /** Tokens of entries stay until their entry is erased. */
  lemma TokStays(s: State, p: nat, e: Effect, k: Tok)
    requires k in s.links && (k.Entry? || k.Sub? || k.Root?) && Pend(p) !in {k}
    requires e.DelEnt? && e.e in s.ents && !k.Root? ==> k.stamp != s.ents[e.e].stamp
    requires k.Entry? ==> k.stamp != s.next
    requires e.IncDir? && e.e in s.ents ==> Sub(s.ents[e.e].stamp) !in s.links
    ensures k in LinksAfter(s, e, p) && LinksAfter(s, e, p)[k] == s.links[k]
  {
  }

  lemma EntTokStays(s: State, p: nat, e: Effect, u: Thread, x: Ent, k: Tok)
    requires Steps(s, p, e, u) && x in s.ents && x in EntsAfter(s, e)
    requires k in s.links && (k == Entry(s.ents[x].stamp) || k == Sub(s.ents[x].stamp))
    ensures k in LinksAfter(s, e, p) && LinksAfter(s, e, p)[k] == s.links[k]
  {
    hide Steps, Inv, Moves, Th, Handled, Files, Enabled, BitsAfter, LinksAfter, InoAt, TokLive;
    StepParts(s, p, e, u);
    OfTok(s, k);
    if e.DelEnt? { DelFacts(s, p, e, u); OfStamps(s, x, e.e); }
    if e.IncDir? { PlusFacts(s, p, e, u); }
    TokStays(s, p, e, k);
  }

  /** The excuse of create ends with the count it excuses. */
  lemma ExcuseStays(s: State, p: nat, e: Effect, u: Thread, x: Ent)
    requires Steps(s, p, e, u) && x in s.ents && Excused(s, x)
    ensures Excused(After(s, p, e, u), x)
            || (Sub(s.ents[x].stamp) in LinksAfter(s, e, p) && LinksAfter(s, e, p)[Sub(s.ents[x].stamp)] == x.dir)
  {
    hide Steps, Inv, Moves, Th, Handled, Files, Enabled, BitsAfter, InosAfter, EntsAfter, HoldAfter, InoAt, RefOk,
      CountOk, CacheOk, Locked, RegOf, Held, HeldOk, Loaded, Agrees, DirtOf;
    StepParts(s, p, e, u);
    InoAfter(s, p, e, u, x.dir);
    var q := InoAt(s, x.dir).lock.value;
    ThAfter(s, p, e, u, q);
    if q == p {
      PlusStep(s, p, e, u);
    } else {
      if e.Release? {
        Releases(Th(s, p), e, u);
        OfReg(s, p, e.r);
      }
      if e.Acquire? { EnabledFree(s, e); }
    }
  }

  lemma PlusStep(s: State, p: nat, e: Effect, u: Thread)
    requires Steps(s, p, e, u) && Th(s, p).pc == CPlus
    ensures e == IncDir(Th(s, p).b, Ent(Th(s, p).b, Th(s, p).name))
  {
    hide Steps, Inv, Moves, Th, InoAt, Handled, Files, Enabled, BitsAfter, Plan, Leads, UnlockPut, Dest;
    StepParts(s, p, e, u);
    Parts(s, Th(s, p), e, u);
  }

  /** The type of an inode with a counted link stays. */
  lemma LinkedStays(s: State, p: nat, e: Effect, u: Thread, k: Tok)
    requires Steps(s, p, e, u) && k in s.links
    ensures InoAt(After(s, p, e, u), s.links[k]).dkind == InoAt(s, s.links[k]).dkind != Free
    ensures !(e.Truncate? && e.i == s.links[k])
  {
    hide Steps, Inv, Moves, Th, InoAt, Handled, Files, Enabled, BitsAfter, After, TokOk, RegOf, LostAt;
    StepParts(s, p, e, u);
    OfTok(s, k);
    DkindAfter(s, p, e, u, s.links[k]);
    if Saves(Th(s, p), e) { SaveFacts(s, p, e, u); }
    if e.Truncate? { TruncFacts(s, p, e, u); }
  }

  lemma OldPlain(s: State, p: nat, e: Effect, u: Thread, x: Ent)
    requires Steps(s, p, e, u) && x in s.ents && x in EntsAfter(s, e) && x.name.Plain?
    ensures PlainOk(After(s, p, e, u), x, s.ents[x])
  {
    hide Steps, Inv, Moves, Th, InoAt, Handled, Files, Enabled, BitsAfter, InosAfter, EntsAfter, HoldAfter, LinksAfter,
      Dots, Excused, RootOk, EntsTurn;
    StepParts(s, p, e, u);
    OfEnt(s, x);
    var l := s.ents[x];
    var k := Entry(l.stamp);
    EntTokStays(s, p, e, u, x, k);
    LinkedStays(s, p, e, u, k);
    DirKept(s, p, e, u, x);
    DotsStay(s, p, e, u, x.dir);
    if InoAt(s, l.target).dkind == Dir {
      DotsStay(s, p, e, u, l.target);
      if Excused(s, x) { ExcuseStays(s, p, e, u, x); } else { EntTokStays(s, p, e, u, x, Sub(l.stamp)); }
    } else {
      NoSub(s, p, e, u, x);
    }
  }

  lemma DirKept(s: State, p: nat, e: Effect, u: Thread, x: Ent)
    requires Steps(s, p, e, u) && x in s.ents && x in EntsAfter(s, e)
    ensures !(e.Truncate? && e.i == x.dir)
  {
  }

  lemma NoSub(s: State, p: nat, e: Effect, u: Thread, x: Ent)
    requires Steps(s, p, e, u) && x in s.ents && InoAt(s, s.ents[x].target).dkind != Dir
             && Sub(s.ents[x].stamp) !in s.links
    ensures Sub(s.ents[x].stamp) !in LinksAfter(s, e, p)
  {
    hide Steps, Inv, Moves, Th, InoAt, Handled, Files, Enabled, BitsAfter, EntsAfter;
    StepParts(s, p, e, u);
    if e.IncDir? { PlusFacts(s, p, e, u); OfStamps(s, x, e.e); }
  }

  lemma OldEnt(s: State, p: nat, e: Effect, u: Thread, x: Ent)
    requires Steps(s, p, e, u) && x in s.ents && x in EntsAfter(s, e) && EntsAfter(s, e)[x] == s.ents[x]
    ensures EntOk(After(s, p, e, u), x)
  {
    hide Steps, Inv, Moves, Th, InoAt, Handled, Files, Enabled, BitsAfter, InosAfter, EntsAfter, HoldAfter, LinksAfter,
      PlainOk, RootOk;
    StepParts(s, p, e, u);
    OfEnt(s, x);
    DkindAfter(s, p, e, u, x.dir);
    if Saves(Th(s, p), e) { SaveFacts(s, p, e, u); }
    if x.name.Plain? { OldPlain(s, p, e, u, x); }
  }

  /** The entry that dirlink has made. */
  lemma NewEnt(s: State, p: nat, e: Effect, u: Thread)
    requires Steps(s, p, e, u) && e.AddEnt?
    ensures EntOk(After(s, p, e, u), e.e)
  {
    hide Steps, Inv, Moves, Th, InoAt, Handled, Files, Enabled, BitsAfter, InosAfter, HoldAfter, LinksAfter, PlainOk,
      RootOk, Dots, Dest, PlanOk, PendOk, FreeOk, WorkOk, Plan, Leads, GetTurn, QuietTurn, UnlockPut, InDir, Linking;
    StepParts(s, p, e, u);
    Parts(s, Th(s, p), e, u);
    if Th(s, p).pc.Do? { DoRegs(s, Th(s, p), e, u); }
    AddsPlain(s, p, e, u);
    DestAt(Th(s, p).pc);
    AddDirType(s, p, e, u);
    DkindAfter(s, p, e, u, e.e.dir);
    if e.e.name.Plain? { NewPlain(s, p, e, u); }
    if e.e == Ent(ROOT, DotDot) { NotRoot(s, p); }
  }

  lemma NotRoot(s: State, p: nat)
    requires Inv(s) && Making(Dest(Th(s, p).pc))
    ensures Th(s, p).a != ROOT
  {
    hide Inv, Th, InoAt, PlanOk, PendOk, KindOk, FreeOk, WorkOk, Dest, Dots, EntOk, TokLive;
    OfThread(s, p);
    OfEnt(s, Ent(ROOT, Dot));
    OfTok(s, Root);
  }

  lemma AddDirType(s: State, p: nat, e: Effect, u: Thread)
    requires Steps(s, p, e, u) && e.AddEnt?
    ensures InoAt(s, e.e.dir).dkind == Dir && !Saves(Th(s, p), e)
  {
    hide Steps, Inv, Moves, Th, InoAt, Handled, Files, Enabled, BitsAfter, Dest, PlanOk, PendOk, FreeOk, MakeOk, Plan,
      Leads, GetTurn, QuietTurn, UnlockPut, Dots;
    StepParts(s, p, e, u);
    Parts(s, Th(s, p), e, u);
    if Th(s, p).pc.Do? { DoRegs(s, Th(s, p), e, u); }
    DestAt(Th(s, p).pc);
    OfThread(s, p);
  }

  lemma NewPlain(s: State, p: nat, e: Effect, u: Thread)
    requires Steps(s, p, e, u) && e.AddEnt? && e.e.name.Plain?
    ensures PlainOk(After(s, p, e, u), e.e, Link(e.target, s.next))
  {
    hide Steps, Inv, Moves, Th, InoAt, Handled, Files, Enabled, BitsAfter, InosAfter, HoldAfter, EntsAfter, Dots, Dest,
      Excused, Pending, AddTurn, NamesEntry, Linking, Making, InDir, PlanOk, PendOk, FreeOk, MakeOk;
    StepParts(s, p, e, u);
    AddsPlain(s, p, e, u);
    OwnToks(s, p, e, u);
    NewStamp(s);
    DotsStay(s, p, e, u, Th(s, p).b);
    LinkedStays(s, p, e, u, Pend(p));
    OfThread(s, p);
    AddPlace(s, p, e, u);
    if InoAt(s, e.target).dkind == Dir {
      NewDirDots(s, p, e, u);
      NewExcuse(s, p, e, u);
    }
  }

  /** link enters files; create enters its new inode, which for a directory has its dots. */
  lemma AddPlace(s: State, p: nat, e: Effect, u: Thread)
    requires Steps(s, p, e, u) && e.AddEnt? && e.e.name.Plain?
    ensures var t := Th(s, p);
            && e.target == t.a
            && (InoAt(s, t.a).dkind == Dir ==>
                  t.pc == CEnt && t.kind == Dir && u.pc == CPlus && e.e == Ent(t.b, t.name) && u.b == t.b
                  && u.name == t.name
                  && Dots(s, t.a) && s.ents[Ent(t.a, DotDot)].target == t.b && t.bits.lb)
  {
    hide Steps, Inv, Moves, Th, InoAt, Files, Enabled, BitsAfter, Dest, PendOk, FreeOk, MakeOk, Plan, Leads, GetTurn,
      QuietTurn, UnlockPut, Owns, Held, Locked;
    StepParts(s, p, e, u);
    Parts(s, Th(s, p), e, u);
    AddsPlain(s, p, e, u);
    if Th(s, p).pc.Do? { DoRegs(s, Th(s, p), e, u); }
    DestAt(Th(s, p).pc);
    OfThread(s, p);
    GripLocks(Th(s, p));
  }

  lemma NewDirDots(s: State, p: nat, e: Effect, u: Thread)
    requires Steps(s, p, e, u) && e.AddEnt? && e.e.name.Plain? && InoAt(s, e.target).dkind == Dir
    ensures Dots(After(s, p, e, u), e.target) && EntsAfter(s, e)[Ent(e.target, DotDot)].target == e.e.dir
  {
    hide Steps, Inv, Moves, Th, InoAt, EntsAfter, Dots, After;
    AddPlace(s, p, e, u);
    DotsStay(s, p, e, u, e.target);
  }

  lemma NewExcuse(s: State, p: nat, e: Effect, u: Thread)
    requires Steps(s, p, e, u) && e.AddEnt? && e.e.name.Plain? && InoAt(s, e.target).dkind == Dir
    ensures Excused(After(s, p, e, u), e.e)
  {
    hide Steps, Inv, Moves, Th, InoAt, After, Handled, Files, Enabled, BitsAfter, Dots, HeldOk, Loaded;
    StepParts(s, p, e, u);
    AddPlace(s, p, e, u);
    OfReg(s, p, B);
    InoAfter(s, p, e, u, e.e.dir);
    ThAfter(s, p, e, u, p);
  }

  lemma EntKept(s: State, p: nat, e: Effect, u: Thread, x: Ent)
    requires Steps(s, p, e, u)
    ensures EntOk(After(s, p, e, u), x)
  {
    hide Steps, EntsAfter, InosAfter, HoldAfter, LinksAfter, InoAt, PlainOk;
    EntsStep(s, p, e, u);
    if x in EntsAfter(s, e) {
      if x in s.ents && EntsAfter(s, e)[x] == s.ents[x] { OldEnt(s, p, e, u, x); } else { NewEnt(s, p, e, u); }
    }
  }

  lemma StampKept(s: State, p: nat, e: Effect, u: Thread, x: Ent, y: Ent)
    requires Steps(s, p, e, u)
    ensures StampOk(After(s, p, e, u), x, y)
  {
    hide Steps, Inv, Moves, EntsAfter, InosAfter, HoldAfter, LinksAfter, InoAt, PlainOk, RootOk, Handled, Files,
      Enabled, BitsAfter, Th;
    StepParts(s, p, e, u);
    EntsStep(s, p, e, u);
    OfStamps(s, x, y);
    OfEnt(s, x);
    OfEnt(s, y);
  }

  lemma RootKept(s: State, p: nat, e: Effect, u: Thread)
    requires Steps(s, p, e, u)
    ensures RootOk(After(s, p, e, u))
  {
    hide Steps, Inv, Moves, EntsAfter, InosAfter, HoldAfter, LinksAfter, InoAt, EntOk, Handled, Files, Enabled,
      BitsAfter, Th, Dots, TokLive;
    StepParts(s, p, e, u);
    OfEnt(s, Ent(ROOT, Dot));
    OfTok(s, Root);
    RootStays(s, p, e);
    LinkedStays(s, p, e, u, Root);
    DotsStay(s, p, e, u, ROOT);
  }

  lemma RootStays(s: State, p: nat, e: Effect)
    requires Root in s.links
    ensures Root in LinksAfter(s, e, p) && LinksAfter(s, e, p)[Root] == s.links[Root]
  {
  }

  /** An entry of a directory that another thread has locked stays as it is. */
  lemma EntryStays(s: State, p: nat, e: Effect, u: Thread, q: nat, r: R, x: Ent)
    requires Steps(s, p, e, u) && q != p && Locked(Th(s, q).bits, r) && x in s.ents && x.dir == RegOf(Th(s, q), r)
    ensures x in EntsAfter(s, e) && EntsAfter(s, e)[x] == s.ents[x]
  {
    hide Steps, Inv, Moves, EntsAfter, Files, Enabled, BitsAfter, Th, Locked, RegOf, Held, HeldOk, Loaded, InoAt, Owns;
    StepParts(s, p, e, u);
    EntsStep(s, p, e, u);
    OfReg(s, q, r);
    if e.DelEnt? || e.Truncate? {
      var d := if e.DelEnt? then e.e.dir else e.i;
      var y := OwnedBy(Th(s, p), d);
      OfReg(s, p, y);
    }
  }

  lemma OtherWork(s: State, p: nat, e: Effect, u: Thread, q: nat)
    requires Steps(s, p, e, u) && q != p
    ensures WorkOk(After(s, p, e, u), q)
  {
    hide Steps, Inv, Moves, EntsAfter, InosAfter, HoldAfter, LinksAfter, Handled, Files, Enabled, BitsAfter, Th, Dest,
      PendOk, KindOk, FreeOk, MakeOk, Plan, Leads, InoAt, NamesEntry, Gripping;
    StepParts(s, p, e, u);
    ThAfter(s, p, e, u, q);
    OfThread(s, q);
    var t := Th(s, q);
    var d := Dest(t.pc);
    GripsOn(t);
    var x := Ent(t.b, t.name);
    if d.UTest? || d.CPlus? { EntryStays(s, p, e, u, q, B, x); }
    if d.CPlus? { SubStays(s, p, e, u, q); }
    if d.CDotDot? || (d.CEnt? && t.kind == Dir) { EntryStays(s, p, e, u, q, A, Ent(t.a, Dot)); }
    if d.CEnt? && t.kind == Dir { EntryStays(s, p, e, u, q, A, Ent(t.a, DotDot)); }
  }

  lemma GripsOn(t: Thread)
    requires Planned(t) && Leads(t.pc)
    ensures var d := Dest(t.pc);
            (d.UTest? || d.CPlus? ==> t.bits.lb) && (d.CDotDot? || d.CEnt? ==> t.bits.la)
  {
    hide Plan, Dest;
    GripLocks(t);
  }

  lemma SubStays(s: State, p: nat, e: Effect, u: Thread, q: nat)
    requires Steps(s, p, e, u) && q != p && Dest(Th(s, q).pc).CPlus?
    ensures var t := Th(s, q);
            var x := Ent(t.b, t.name);
            x in s.ents && Sub(s.ents[x].stamp) !in LinksAfter(s, e, p)
  {
    hide Steps, Inv, Moves, EntsAfter, Handled, Files, Enabled, BitsAfter, Th, Dest, PendOk, KindOk, FreeOk, MakeOk,
      Plan, Leads, InoAt, NamesEntry, Gripping;
    StepParts(s, p, e, u);
    OfThread(s, q);
    if e.IncDir? {
      var t := Th(s, q);
      PlusFacts(s, p, e, u);
      OfStamps(s, Ent(t.b, t.name), e.e);
      OfThread(s, p);
      DestAt(Th(s, p).pc);
      GripsOn(t);
      GripsOn(Th(s, p));
      OfReg(s, q, B);
      OfReg(s, p, B);
    }
  }

  lemma OwnWork(s: State, p: nat, e: Effect, u: Thread)
    requires Steps(s, p, e, u)
    ensures WorkOk(After(s, p, e, u), p)
  {
    hide Steps, Inv, Moves, InosAfter, HoldAfter, EntsAfter, LinksAfter, Handled, Files, Enabled, BitsAfter, Th, Dest,
      PendOk, KindOk, FreeOk, MakeOk, PlanOk, InoAt, Linked;
    StepParts(s, p, e, u);
    ThAfter(s, p, e, u, p);
    OfThread(s, p);
    var t := Th(s, p);
    Works(s, t, e, u);
    EntsStep(s, p, e, u);
    if !t.pc.Do? { DestAt(t.pc); }
    if e.AddEnt? { PlusNew(s, p, e, u); }
    if NamesEntry(Dest(u.pc)) { OwnName(s, p, e, u); }
  }

  lemma OwnName(s: State, p: nat, e: Effect, u: Thread)
    requires Steps(s, p, e, u) && NamesEntry(Dest(u.pc))
    ensures u.name.Plain?
  {
    hide Steps, Inv, Moves, Handled, Files, Enabled, BitsAfter, Th, Dest, PendOk, KindOk, FreeOk, MakeOk, PlanOk,
      InoAt, Linked, Shows;
    StepParts(s, p, e, u);
    OfThread(s, p);
    var t := Th(s, p);
    Works(s, t, e, u);
    if t.pc == CName {
      DestAt(t.pc);
      NamedPlain(s, p, u.name);
    }
  }

  /** A name that dirlookup does not find is neither "." nor "..". */
  lemma NamedPlain(s: State, p: nat, n: Nm)
    requires Inv(s) && Th(s, p).pc == CName && Ent(Th(s, p).b, n) !in s.ents
    ensures n.Plain?
  {
    hide Inv, Th, InoAt, HoldOk, HoldLive;
    InDirNow(s, p);
    HeldRef(s, p, B);
    OfHold(s, Reg(p, B));
  }

  lemma PlusNew(s: State, p: nat, e: Effect, u: Thread)
    requires Steps(s, p, e, u) && e.AddEnt?
    ensures e.e in EntsAfter(s, e) && EntsAfter(s, e)[e.e] == Link(e.target, s.next)
            && Sub(s.next) !in LinksAfter(s, e, p)
  {
    hide Steps, Inv, Moves, Handled, Files, Enabled, BitsAfter, Th;
    StepParts(s, p, e, u);
    NewStamp(s);
  }

  lemma WorkKept(s: State, p: nat, e: Effect, u: Thread, q: nat)
    requires Steps(s, p, e, u)
    ensures WorkOk(After(s, p, e, u), q)
  {
    hide Steps, WorkOk, After;
    if q == p { OwnWork(s, p, e, u); } else { OtherWork(s, p, e, u, q); }
  }

  lemma PlanKept(s: State, p: nat, e: Effect, u: Thread, q: nat)
    requires Steps(s, p, e, u)
    ensures PlanOk(After(s, p, e, u), q)
  {
    hide Steps, Inv, Moves, Handled, Files, Enabled, BitsAfter, Th, Plan, Leads, PendOk, KindOk, FreeOk, MakeOk,
      WorkOk, Turn, DoTurn, Simple, After;
    StepParts(s, p, e, u);
    ThAfter(s, p, e, u, q);
    OfThread(s, q);
    Parts(s, Th(s, p), e, u);
  }

  // ------------------------------------------------------------ runs

  /** Every step keeps the invariant. */
  lemma StepKeeps(s: State, p: nat, ch: Choice, t: State)
    requires Inv(s) && Next(s, p, ch) == Some(t)
    ensures Inv(t)
  {
    hide Inv, After, Enabled, Code, BitsAfter, Plan, Leads, Moves;
    NoPanic(s, p, ch);
    ThreadPlan(s, p);
    var e, u := MovesTo(s, s.threads[p], ch);
    StepsKeep(s, p, e, u);
  }

  lemma ThreadPlan(s: State, p: nat)
    requires Inv(s) && p < |s.threads|
    ensures Planned(s.threads[p]) && Leads(s.threads[p].pc) && Th(s, p) == s.threads[p]
  {
    hide Inv, Plan, Leads, PendOk, KindOk, FreeOk, MakeOk, WorkOk;
    OfThread(s, p);
  }

  lemma StepsKeep(s: State, p: nat, e: Effect, u: Thread)
    requires p < |s.threads| && Inv(s) && Moves(s, s.threads[p], e, u)
    ensures Inv(After(s, p, e, u))
  {
    hide Inv, Moves, After;
    assert Steps(s, p, e, u);
    ThreadsKept(s, p, e, u);
    RestKept(s, p, e, u);
    AllTogether(After(s, p, e, u));
  }

  lemma AllTogether(s: State)
    requires ThreadsOk(s) && RegsOk(s) && InosOk(s) && HoldsOk(s) && ToksOk(s) && EntsOk(s)
    ensures Inv(s)
  {
  }

  lemma ThreadsKept(s: State, p: nat, e: Effect, u: Thread)
    requires Steps(s, p, e, u)
    ensures ThreadsOk(After(s, p, e, u))
  {
    hide Steps, After, PlanOk, PendOk, KindOk, FreeOk, MakeOk, WorkOk, ApartOk;
    var t := After(s, p, e, u);
    forall q: nat ensures PlanOk(t, q) { PlanKept(s, p, e, u, q); }
    forall q: nat ensures PendOk(t, q) { PendKept(s, p, e, u, q); }
    forall q: nat ensures KindOk(t, q) { KindKept(s, p, e, u, q); }
    forall q: nat ensures FreeOk(t, q) { FreeKept(s, p, e, u, q); }
    forall q: nat ensures MakeOk(t, q) { MakeKept(s, p, e, u, q); }
    forall q: nat ensures WorkOk(t, q) { WorkKept(s, p, e, u, q); }
    forall q: nat, q': nat ensures ApartOk(t, q, q') { ApartKept(s, p, e, u, q, q'); }
  }

  lemma RestKept(s: State, p: nat, e: Effect, u: Thread)
    requires Steps(s, p, e, u)
    ensures var t := After(s, p, e, u); RegsOk(t) && InosOk(t) && HoldsOk(t) && ToksOk(t) && EntsOk(t)
  {
    hide Steps, After, HeldOk, OwnOk, Loaded, RefOk, LockOk, CountOk, CacheOk, HoldOk, HoldLive, DotsOk, TokOk,
      TokLive, EntOk, StampOk, RootOk;
    var t := After(s, p, e, u);
    forall q: nat, r ensures HeldOk(t, q, r) { HeldKept(s, p, e, u, q, r); }
    forall q: nat, r ensures OwnOk(t, q, r) { OwnKept(s, p, e, u, q, r); }
    forall q: nat, r ensures Loaded(t, q, r) { LoadedKept(s, p, e, u, q, r); }
    forall i: nat ensures RefOk(t, i) { RefKept(s, p, e, u, i); }
    forall i: nat ensures LockOk(t, i) { LockKept(s, p, e, u, i); }
    forall i: nat ensures CountOk(t, i) { CountKept(s, p, e, u, i); }
    forall i: nat ensures CacheOk(t, i) { CacheKept(s, p, e, u, i); }
    forall h ensures HoldOk(t, h) { HoldKept(s, p, e, u, h); }
    forall h ensures HoldLive(t, h) { HoldLiveKept(s, p, e, u, h); }
    forall h ensures DotsOk(t, h) { DotsKept(s, p, e, u, h); }
    forall k ensures TokOk(t, k) { TokKept(s, p, e, u, k); }
    forall k ensures TokLive(t, k) { TokLiveKept(s, p, e, u, k); }
    forall x ensures EntOk(t, x) { EntKept(s, p, e, u, x); }
    forall x, y ensures StampOk(t, x, y) { StampKept(s, p, e, u, x, y); }
    RootKept(s, p, e, u);
  }

  /** A file system as mkfs leaves it, before any call: the root with its dots, and files in it, each
      under one name. */
  ghost predicate Initial(s: State) {
    && s.hold == map[] && ROOT < |s.inos|
    && (forall p: nat {:trigger Th(s, p)} :: Th(s, p).pc == Out && Th(s, p).bits == NONE)
    && (forall i: nat {:trigger InoAt(s, i)} :: InoAt(s, i).ref == 0 && InoAt(s, i).lock == None)
    && (forall x {:trigger x in s.ents} :: x in s.ents ==> x.dir == ROOT && s.ents[x].stamp < s.next)
    && (forall x, y {:trigger s.ents[x], s.ents[y]} ::
          x in s.ents && y in s.ents && x != y ==>
            s.ents[x].stamp != s.ents[y].stamp && (x.name.Plain? && y.name.Plain? ==>
                                                     s.ents[x].target != s.ents[y].target))
    && Dots(s, ROOT) && s.ents[Ent(ROOT, Dot)].target == ROOT && s.ents[Ent(ROOT, DotDot)].target == ROOT
    && (forall k {:trigger k in s.links} :: k in s.links <==>
          k == Root || exists x :: x in s.ents && x.name.Plain? && k == Entry(s.ents[x].stamp))
    && s.links[Root] == ROOT
    && (forall x {:trigger s.ents[x]} :: x in s.ents && x.name.Plain? ==>
          Entry(s.ents[x].stamp) in s.links && s.links[Entry(s.ents[x].stamp)] == s.ents[x].target != ROOT)
    && (forall i: nat {:trigger InoAt(s, i)} ::
          var o := InoAt(s, i);
          if i == ROOT then o.dkind == Dir && o.dnlink == 1
          else if Linked(s, i) then o.dkind == File && o.dnlink == 1
          else o.dkind == Free && o.dnlink == 0)
  }

  lemma InitialCount(s: State, i: nat)
    requires Initial(s)
    ensures CountOk(s, i)
  {
    hide InoAt;
    if i == ROOT {
      OnePre(s.links, i, Root);
    } else if Linked(s, i) {
      var x :| x in s.ents && x.name.Plain? && s.ents[x].target == i;
      OnePre(s.links, i, Entry(s.ents[x].stamp));
    } else {
      NonePre(s.links, i);
    }
  }

  lemma InitialEnt(s: State, x: Ent)
    requires Initial(s)
    ensures EntOk(s, x)
  {
    hide InoAt;
    if x in s.ents && x.name.Plain? {
      assert Linked(s, s.ents[x].target);
      assert Sub(s.ents[x].stamp) !in s.links;
    }
  }

  lemma InitialTok(s: State, k: Tok)
    requires Initial(s)
    ensures TokOk(s, k) && TokLive(s, k)
  {
    hide InoAt, Pending, Th, Dest;
    if k in s.links && k != Root {
      var x :| x in s.ents && x.name.Plain? && k == Entry(s.ents[x].stamp);
      assert Linked(s, s.links[k]);
    }
  }

  lemma InitialThread(s: State, p: nat)
    requires Initial(s)
    ensures PlanOk(s, p) && PendOk(s, p) && KindOk(s, p) && FreeOk(s, p) && MakeOk(s, p) && WorkOk(s, p)
  {
    hide InoAt, Th;
    assert Th(s, p).pc == Out;
  }

  lemma InitialIno(s: State, i: nat)
    requires Initial(s)
    ensures RefOk(s, i) && LockOk(s, i) && CacheOk(s, i)
  {
    hide InoAt, Th;
    assert InoAt(s, i).ref == 0;
    NonePre(s.hold, i);
  }

  lemma InitialRegs(s: State, p: nat, r: R)
    requires Initial(s)
    ensures HeldOk(s, p, r) && OwnOk(s, p, r) && Loaded(s, p, r)
  {
    hide InoAt, Th;
    assert Th(s, p).bits == NONE;
  }

  lemma InitialIsOk(s: State)
    requires Initial(s)
    ensures Inv(s)
  {
    assert RootOk(s) by { assert InoAt(s, ROOT).dkind == Dir; assert Root in s.links; }
    forall p: nat, q: nat ensures ApartOk(s, p, q) { assert Th(s, p).pc == Out; }
    forall x, y ensures StampOk(s, x, y) {}
    forall h ensures HoldOk(s, h) && HoldLive(s, h) && DotsOk(s, h) {}
    hide Initial, PlanOk, PendOk, KindOk, FreeOk, MakeOk, WorkOk, ApartOk, HeldOk, OwnOk, Loaded, RefOk, LockOk,
      CountOk, CacheOk, HoldOk, HoldLive, DotsOk, TokOk, TokLive, EntOk, StampOk, RootOk;
    forall p: nat ensures PlanOk(s, p) && PendOk(s, p) && KindOk(s, p) && FreeOk(s, p) && MakeOk(s, p) && WorkOk(s, p) {
      InitialThread(s, p);
    }
    forall p: nat, r ensures HeldOk(s, p, r) && OwnOk(s, p, r) && Loaded(s, p, r) { InitialRegs(s, p, r); }
    forall i: nat ensures RefOk(s, i) && LockOk(s, i) && CacheOk(s, i) { InitialIno(s, i); }
    forall i: nat ensures CountOk(s, i) { InitialCount(s, i); }
    forall k ensures TokOk(s, k) && TokLive(s, k) { InitialTok(s, k); }
    forall x ensures EntOk(s, x) { InitialEnt(s, x); }
  }

  datatype RunStep = RunStep(p: nat, ch: Choice)

  function RunFrom(s: State, steps: seq<RunStep>): (t: Option<State>)
    decreases |steps|
  {
    if steps == [] then Some(s)
    else match Next(s, steps[0].p, steps[0].ch)
         case None => None
         case Some(u) => RunFrom(u, steps[1..])
  }

  lemma {:induction false} RunFromKeeps(s: State, steps: seq<RunStep>)
    requires Inv(s) && RunFrom(s, steps).Some?
    ensures Inv(RunFrom(s, steps).value)
    decreases |steps|
  {
    hide Inv, Next;
    if steps != [] {
      var u := Next(s, steps[0].p, steps[0].ch).value;
      StepKeeps(s, steps[0].p, steps[0].ch, u);
      RunFromKeeps(u, steps[1..]);
    }
  }

  /** The entries other than "." and ".." that name i. */
  ghost function NamesOf(s: State, i: nat): (xs: set<Ent>) {
    set x | x in s.ents && x.name.Plain? && s.ents[x].target == i
  }

  /** nlink of every inode, file or directory, is at least the number of entries naming it. */
  ghost predicate EntriesAreCounted(s: State) {
    forall i: nat {:trigger NamesOf(s, i)} :: |NamesOf(s, i)| <= Nlink(InoAt(s, i))
  }

  /** An inode that iput is freeing has no entry, and no reference but the one iput is dropping. */
  ghost predicate FreedOnlyUnused(s: State) {
    forall p: nat {:trigger Th(s, p)} :: Freeing(Th(s, p).pc) ==>
      var i := RegOf(Th(s, p), Th(s, p).pc.r);
      NamesOf(s, i) == {} && Pre(s.hold, i) == {Reg(p, Th(s, p).pc.r)} && InoAt(s, i).ref == 1
  }

  /** Every reference, but one that iput has given up, is to an allocated inode. */
  ghost predicate ReferencesAreLive(s: State) {
    forall h {:trigger s.hold[h]} :: h in s.hold && !Spent(s, h) ==> InoAt(s, s.hold[h]).dkind != Free
  }

  /** No thread is in a panic, and iput's acquiresleep of an inode it frees finds the lock free. */
  ghost predicate NothingStuck(s: State) {
    forall p: nat {:trigger Th(s, p)} ::
      var t := Th(s, p);
      && t.pc != Panicked
      && (t.pc.Do? && t.pc.act == Put ==>
            var o := InoAt(s, RegOf(t, t.pc.r)); o.ref == 1 && o.valid && o.nlink == 0 ==> o.lock == None)
  }

  ghost function Stamps(s: State, xs: set<Ent>): (ks: set<Tok>)
    requires forall x :: x in xs ==> x in s.ents
  {
    set x | x in xs :: Entry(s.ents[x].stamp)
  }

  lemma {:induction false} StampsSize(s: State, xs: set<Ent>)
    requires Inv(s) && forall x :: x in xs ==> x in s.ents
    ensures |Stamps(s, xs)| == |xs|
  {
    hide Inv;
    if xs != {} {
      var x :| x in xs;
      var ys := xs - {x};
      StampsSize(s, ys);
      forall y | y in ys ensures Entry(s.ents[y].stamp) != Entry(s.ents[x].stamp) { OfStamps(s, x, y); }
      assert Stamps(s, xs) == Stamps(s, ys) + {Entry(s.ents[x].stamp)};
      assert xs == ys + {x};
    }
  }

  lemma {:induction false} SubsetSize<K>(a: set<K>, b: set<K>)
    requires a <= b
    ensures |a| <= |b|
  {
    if a != {} {
      var x :| x in a;
      SubsetSize(a - {x}, b - {x});
    }
  }

  lemma CountedHold(s: State, i: nat)
    requires Inv(s)
    ensures |NamesOf(s, i)| <= Nlink(InoAt(s, i))
  {
    hide Inv, InoAt, Nlink, RefOk, LockOk, CacheOk, RootOk;
    var xs := NamesOf(s, i);
    StampsSize(s, xs);
    forall k | k in Stamps(s, xs) ensures k in Pre(s.links, i) {
      var x :| x in xs && k == Entry(s.ents[x].stamp);
      OfEnt(s, x);
    }
    SubsetSize(Stamps(s, xs), Pre(s.links, i));
    OfIno(s, i);
  }

  lemma FreedHold(s: State, p: nat)
    requires Inv(s) && Freeing(Th(s, p).pc)
    ensures var i := RegOf(Th(s, p), Th(s, p).pc.r);
            NamesOf(s, i) == {} && Pre(s.hold, i) == {Reg(p, Th(s, p).pc.r)} && InoAt(s, i).ref == 1
  {
    hide Inv, InoAt, Th, PendOk, KindOk, MakeOk, WorkOk, LockOk, CountOk, CacheOk, Plan, Leads, RegOf, RootOk;
    var i := RegOf(Th(s, p), Th(s, p).pc.r);
    OfThread(s, p);
    ThenSimple(Th(s, p));
    HeldRef(s, p, Th(s, p).pc.r);
    OfIno(s, i);
    assert Pre(s.hold, i) == {Reg(p, Th(s, p).pc.r)};
    forall x | x in s.ents && x.name.Plain? ensures s.ents[x].target != i { OfEnt(s, x); }
  }

  lemma StuckNever(s: State, p: nat)
    requires Inv(s)
    ensures var t := Th(s, p);
            && t.pc != Panicked
            && (t.pc.Do? && t.pc.act == Put ==>
                  var o := InoAt(s, RegOf(t, t.pc.r)); o.ref == 1 && o.valid && o.nlink == 0 ==> o.lock == None)
  {
    hide Inv, InoAt, Th, PendOk, KindOk, FreeOk, MakeOk, WorkOk, Plan, Pre, Dest;
    var t := Th(s, p);
    OfThread(s, p);
    DestAt(Panicked);
    if t.pc.Do? && t.pc.act == Put {
      ThenSimple(t);
      if InoAt(s, RegOf(t, t.pc.r)).ref == 1 { Sole(s, p, t.pc.r); }
    }
  }

  /** Link safety, in every state of every run. */
  lemma LinksAreSafe(s: State, steps: seq<RunStep>)
    requires Initial(s) && RunFrom(s, steps).Some?
    ensures var t := RunFrom(s, steps).value;
            EntriesAreCounted(t) && FreedOnlyUnused(t) && ReferencesAreLive(t) && NothingStuck(t)
  {
    InitialIsOk(s);
    RunFromKeeps(s, steps);
    SafeHere(RunFrom(s, steps).value);
  }

  lemma SafeHere(t: State)
    requires Inv(t)
    ensures EntriesAreCounted(t) && FreedOnlyUnused(t) && ReferencesAreLive(t) && NothingStuck(t)
  {
    hide Inv, InoAt, Th, Nlink, NamesOf, Pre, RegOf, Spent, HoldOk, DotsOk;
    forall i: nat ensures |NamesOf(t, i)| <= Nlink(InoAt(t, i)) { CountedHold(t, i); }
    forall p: nat | Freeing(Th(t, p).pc)
      ensures var i := RegOf(Th(t, p), Th(t, p).pc.r);
              NamesOf(t, i) == {} && Pre(t.hold, i) == {Reg(p, Th(t, p).pc.r)} && InoAt(t, i).ref == 1
    {
      FreedHold(t, p);
    }
    forall h | h in t.hold && !Spent(t, h) ensures InoAt(t, t.hold[h]).dkind != Free { OfHold(t, h); }
    forall p: nat
      ensures var u := Th(t, p);
              && u.pc != Panicked
              && (u.pc.Do? && u.pc.act == Put ==>
                    var o := InoAt(t, RegOf(u, u.pc.r)); o.ref == 1 && o.valid && o.nlink == 0 ==> o.lock == None)
    {
      StuckNever(t, p);
    }
  }
}
