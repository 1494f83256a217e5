/** link, unlink, create, the path walks they start with, and iget, ilock, iput, ialloc and iupdate
    beneath them, as a machine of any number of threads over any number of inodes, in every
    interleaving. A step is one access to what itable.lock, an inode's lock or an inode block's
    buffer guards; stretches under an inode's lock that touch only that inode are one step. A
    directory is the finite map that Directory shows it to be. */
module LinkMachine {
  import opened Options

  /** Type of an inode; files and devices behave alike here. */
  datatype Kind = Free | File | Dir

  /** An inode: its itable entry, its copy on disk, and who has its lock. */
  datatype Ino = Ino(ref: nat, valid: bool, kind: Kind, nlink: int, dkind: Kind, dnlink: int, lock: Option<nat>)

  datatype Nm = Dot | DotDot | Plain(id: nat)

  datatype Ent = Ent(dir: nat, name: Nm)

  /** What an entry holds. The stamp tells apart entries made at different times. */
  datatype Link = Link(target: nat, stamp: nat)

  /** The inode pointers of a thread: ip, dp, and next in namex. */
  datatype R = A | B | C

  /** Who has a reference: a thread's pointer, or an open file or current directory. */
  datatype Holder = Reg(p: nat, r: R) | Base(k: nat)

  /** What nlink counts: the root itself, an entry, a directory's entry (for the ".." below it), and
      links that thread p has counted but not entered, or erased but not yet discounted. */
  datatype Tok = Root | Entry(stamp: nat) | Sub(stamp: nat) | Pend(p: nat) | PendDir(p: nat)

  datatype Goal = LinkOld | LinkNew | Unlink | Create | Open

  /** ilock, iunlock, iupdate and iput of a pointer; the last six are iput freeing the inode. */
  datatype Act = Lock | Unlock | Store | Put | Trunc | Clear | Save | Inval | FreeUnlock | Unref

  /** Where a thread is. Do(act, r, pc) is act on pointer r, and then pc. */
  datatype Pc =
    | Out | Panicked
    | WMore(g: Goal) | WTest(g: Goal) | WShift(g: Goal)
    | LTest | LWalk | LDir | LBad
    | UName | UTest | UDecDir | UDec
    | CName | CAlloc | CGot | CIget | CInit | CDot | CDotDot | CEnt | CPlus | CFail | CEnd
    | Do(act: Act, r: R, then': Pc)

  /** Which pointers hold a reference, and which have their inode locked. */
  datatype Bits = Bits(ha: bool, hb: bool, hc: bool, la: bool, lb: bool, lc: bool)

  datatype Thread = Thread(pc: Pc, a: nat, b: nat, c: nat, name: Nm, kind: Kind, bits: Bits)

  /** `bits` and `links` record what the steps do; no step reads them. `links` says what each nlink counts. */
  datatype State = State(inos: seq<Ino>, ents: map<Ent, Link>, threads: seq<Thread>, hold: map<Holder, nat>,
                         links: map<Tok, nat>, next: nat)

  const ROOT: nat := 1

  datatype Effect =
    | Quiet
    | Get(r: R, i: nat) | Drop(r: R, i: nat) | Move(r: R, to: R, i: nat)
    | Keep(r: R, k: nat, i: nat) | Reuse(k: nat, r: R, i: nat)
    | Acquire(r: R, i: nat) | Release(r: R, i: nat)
    | Update(i: nat) | Truncate(i: nat) | Wipe(i: nat) | Invalidate(i: nat)
    | Inc(i: nat) | Dec(i: nat) | DecDir(i: nat) | IncDir(i: nat, e: Ent) | SetOne(i: nat) | SetZero(i: nat)
    | AddEnt(e: Ent, target: nat) | DelEnt(e: Ent) | Claim(i: nat, kind: Kind)

  datatype Op = Op(effect: Effect, next: Thread)

  /** The open points of a run: which call, from where, which name, which free inode, whether a
      directory write fails. */
  datatype Choice =
    | Walk(g: Goal, from: Option<nat>, kind: Kind) | Close(k: nat) | Name(n: Nm) | Alloc(i: nat) | KeepAs(k: nat)
    | Go | Stop | Fail

  function RegOf(t: Thread, r: R): (i: nat) { match r case A => t.a case B => t.b case C => t.c }

  function UnlockPut(r: R, th: Pc): (pc: Pc) { Do(Unlock, r, Do(Put, r, th)) }

  predicate Parent(g: Goal) { g == LinkNew || g == Unlink || g == Create }

  /** Where a walk that finds nothing goes on, and one that found the parent directory. */
  function Failed(g: Goal): (pc: Pc) { if g == LinkNew then Do(Lock, A, LBad) else Out }

  function Found(g: Goal): (pc: Pc) {
    if g == LinkNew then Do(Lock, B, LDir) else if g == Unlink then Do(Lock, B, UName) else Do(Lock, B, CName)
  }

  /** No entries but "." and "..". */
  predicate IsEmpty(s: State, d: nat) { forall e :: e in s.ents && e.dir == d ==> !e.name.Plain? }

  /** Some entry other than "." and ".." names d. */
  predicate Linked(s: State, d: nat) { exists e :: e in s.ents && e.name.Plain? && s.ents[e].target == d }

  /** iget of the root, or idup of an inode held outside the machine's threads. */
  function Source(s: State, from: Option<nat>): (i: Option<nat>) {
    match from
    case None => Some(ROOT)
    case Some(k) => if Base(k) in s.hold then Some(s.hold[Base(k)]) else None
  }

  function InoAt(s: State, i: nat): (o: Ino) {
    if i < |s.inos| then s.inos[i] else Ino(0, false, Free, 0, Free, 0, None)
  }

  /** One step of ilock, iunlock, iupdate or iput. */
  function DoCode(s: State, t: Thread, act: Act, r: R, th: Pc): (op: Op) {
    var i := RegOf(t, r);
    var o := InoAt(s, i);
    match act
    case Lock => Op(Acquire(r, i), t.(pc := if !o.valid && o.dkind == Free then Panicked else th))
    case Unlock => Op(Release(r, i), t.(pc := th))
    case Store => Op(Update(i), t.(pc := th))
    case Put => if o.ref == 1 && o.valid && o.nlink == 0 then Op(Acquire(r, i), t.(pc := Do(Trunc, r, th)))
                else Op(Drop(r, i), t.(pc := th))
    case Trunc => Op(Truncate(i), t.(pc := Do(Clear, r, th)))
    case Clear => Op(Wipe(i), t.(pc := Do(Save, r, th)))
    case Save => Op(Update(i), t.(pc := Do(Inval, r, th)))
    case Inval => Op(Invalidate(i), t.(pc := Do(FreeUnlock, r, th)))
    case FreeUnlock => Op(Release(r, i), t.(pc := Do(Unref, r, th)))
    case Unref => Op(Drop(r, i), t.(pc := th))
  }

  /** namex, and the start of each call. */
  function WalkCode(s: State, t: Thread, ch: Choice): (op: Option<Op>) {
    match t.pc
    case Out =>
      (match ch
       case Walk(g, from, k) =>
         if g == LinkNew || k == Free || Source(s, from) == None then None
         else var i := Source(s, from).value; Some(Op(Get(B, i), t.(pc := WMore(g), b := i, kind := k)))
       case Close(k) =>
         if Base(k) !in s.hold then None
             else Some(Op(Reuse(k, A, s.hold[Base(k)]), t.(pc := Do(Put, A, Out), a := s.hold[Base(k)])))
       case _ => None)
    case WMore(g) =>
      (match ch
       case Go => Some(Op(Quiet, t.(pc := Do(Lock, B, WTest(g)))))
       case Stop => if g == LinkOld then Some(Op(Move(B, A, t.b), t.(pc := Do(Lock, A, LTest), a := t.b))) else None
       case KeepAs(k) => if g == Open && Base(k) !in s.hold then Some(Op(Keep(B, k, t.b), t.(pc := Out))) else None
       case Fail => if Parent(g) then Some(Op(Quiet, t.(pc := Do(Put, B, Failed(g))))) else None
       case _ => None)
    case WTest(g) =>
      if InoAt(s, t.b).kind != Dir then Some(Op(Quiet, t.(pc := UnlockPut(B, Failed(g)))))
      else
        (match ch
         case Stop => if Parent(g) then Some(Op(Quiet, t.(pc := Do(Unlock, B, Found(g))))) else None
         case Name(n) =>
           if Ent(t.b, n) !in s.ents then Some(Op(Quiet, t.(pc := UnlockPut(B, Failed(g)))))
           else if n == DotDot && t.b != ROOT && !Linked(s, t.b) then None // ".." of a removed directory: excluded
           else var i := s.ents[Ent(t.b, n)].target; Some(Op(Get(C, i), t.(pc := UnlockPut(B, WShift(g)), c := i)))
         case _ => None)
    case WShift(g) => Some(Op(Move(C, B, t.c), t.(pc := WMore(g), b := t.c)))
    case _ => None
  }

  /** sys_link. */
  function LinkCode(s: State, t: Thread, ch: Choice): (op: Option<Op>) {
    match t.pc
    case LTest => if InoAt(s, t.a).kind == Dir then Some(Op(Quiet, t.(pc := UnlockPut(A, Out))))
                  else Some(Op(Inc(t.a), t.(pc := Do(Store, A, Do(Unlock, A, LWalk)))))
    case LWalk =>
      (match ch
       case Walk(_, from, _) =>
         if Source(s, from) == None then None
         else var i := Source(s, from).value; Some(Op(Get(B, i), t.(pc := WMore(LinkNew), b := i)))
       case _ => None)
    case LDir =>
      (match ch
       case Name(n) =>
         if Ent(t.b, n) in s.ents then Some(Op(Quiet, t.(pc := UnlockPut(B, Do(Lock, A, LBad)))))
         else Some(Op(AddEnt(Ent(t.b, n), t.a), t.(pc := UnlockPut(B, Do(Put, A, Out)))))
       case Fail => Some(Op(Quiet, t.(pc := UnlockPut(B, Do(Lock, A, LBad)))))
       case _ => None)
    case LBad => Some(Op(Dec(t.a), t.(pc := Do(Store, A, UnlockPut(A, Out)))))
    case _ => None
  }

  /** sys_unlink. */
  function UnlinkCode(s: State, t: Thread, ch: Choice): (op: Option<Op>) {
    match t.pc
    case UName =>
      (match ch
       case Name(n) =>
         if !n.Plain? || Ent(t.b, n) !in s.ents then Some(Op(Quiet, t.(pc := UnlockPut(B, Out))))
         else var i := s.ents[Ent(t.b, n)].target; Some(Op(Get(A, i), t.(pc := Do(Lock, A, UTest), a := i, name := n)))
       case _ => None)
    case UTest =>
      var o := InoAt(s, t.a);
      if o.nlink < 1 then Some(Op(Quiet, t.(pc := Panicked)))
      else if o.kind == Dir && !IsEmpty(s, t.a) then Some(Op(Quiet, t.(pc := UnlockPut(A, UnlockPut(B, Out)))))
      else Some(Op(DelEnt(Ent(t.b, t.name)), t.(pc := if o.kind == Dir then UDecDir else UnlockPut(B, UDec))))
    case UDecDir => Some(Op(DecDir(t.b), t.(pc := Do(Store, B, UnlockPut(B, UDec)))))
    case UDec => Some(Op(Dec(t.a), t.(pc := Do(Store, A, UnlockPut(A, Out)))))
    case _ => None
  }

  /** create, and what its callers do with the inode. */
  function CreateCode(s: State, t: Thread, ch: Choice): (op: Option<Op>) {
    match t.pc
    case CName =>
      (match ch
       case Name(n) =>
         if Ent(t.b, n) !in s.ents then Some(Op(Quiet, t.(pc := CAlloc, name := n)))
         else if n == DotDot && t.b != ROOT && !Linked(s, t.b) then None // ".." of a removed directory: excluded
         else
           var i := s.ents[Ent(t.b, n)].target;
           Some(Op(Get(A, i), t.(pc := UnlockPut(B, Do(Lock, A, CGot)), a := i)))
       case _ => None)
    case CGot => if t.kind == File && InoAt(s, t.a).kind == File then Some(Op(Quiet, t.(pc := Do(Unlock, A, CEnd))))
                 else Some(Op(Quiet, t.(pc := UnlockPut(A, Out))))
    case CAlloc =>
      (match ch
       case Alloc(i) => if i < |s.inos| && s.inos[i].dkind == Free
           then Some(Op(Claim(i, t.kind), t.(pc := CIget, a := i))) else None
       case Fail => Some(Op(Quiet, t.(pc := UnlockPut(B, Out))))
       case _ => None)
    case CIget => Some(Op(Get(A, t.a), t.(pc := Do(Lock, A, CInit))))
    case CEnd =>
      (match ch
       case KeepAs(k) => if t.kind == File && Base(k) !in s.hold then Some(Op(Keep(A, k, t.a), t.(pc := Out))) else None
       case Stop => Some(Op(Quiet, t.(pc := Do(Put, A, Out))))
       case _ => None)
    case _ => None
  }

  /** The part of create that fills the new inode in and enters it. */
  function MakeCode(s: State, t: Thread, ch: Choice): (op: Option<Op>) {
    match t.pc
    case CInit => Some(Op(SetOne(t.a), t.(pc := Do(Store, A, if t.kind == Dir then CDot else CEnt))))
    case CDot => if ch == Fail || Ent(t.a, Dot) in s.ents then Some(Op(Quiet, t.(pc := CFail)))
                 else Some(Op(AddEnt(Ent(t.a, Dot), t.a), t.(pc := CDotDot)))
    case CDotDot => if ch == Fail || Ent(t.a, DotDot) in s.ents then Some(Op(Quiet, t.(pc := CFail)))
                    else Some(Op(AddEnt(Ent(t.a, DotDot), t.b), t.(pc := CEnt)))
    case CEnt => if ch == Fail || Ent(t.b, t.name) in s.ents then Some(Op(Quiet, t.(pc := CFail)))
                 else Some(Op(AddEnt(Ent(t.b, t.name), t.a),
                              t.(pc := if t.kind == Dir then CPlus else UnlockPut(B, Do(Unlock, A, CEnd)))))
    case CPlus => Some(Op(IncDir(t.b, Ent(t.b, t.name)), t.(pc := Do(Store, B, UnlockPut(B, Do(Unlock, A, CEnd))))))
    case CFail => Some(Op(SetZero(t.a), t.(pc := Do(Store, A, UnlockPut(A, UnlockPut(B, Out))))))
    case _ => None
  }

  predicate InWalk(pc: Pc) { pc.Out? || pc.WMore? || pc.WTest? || pc.WShift? }

  predicate InLink(pc: Pc) { pc.LTest? || pc.LWalk? || pc.LDir? || pc.LBad? }

  predicate InUnlink(pc: Pc) { pc.UName? || pc.UTest? || pc.UDecDir? || pc.UDec? }

  predicate InCreate(pc: Pc) { pc.CName? || pc.CAlloc? || pc.CGot? || pc.CIget? || pc.CEnd? }

  /** The program of a thread. */
  function Code(s: State, t: Thread, ch: Choice): (op: Option<Op>) {
    if t.pc.Do? then Some(DoCode(s, t, t.pc.act, t.pc.r, t.pc.then'))
    else if InWalk(t.pc) then WalkCode(s, t, ch)
    else if InLink(t.pc) then LinkCode(s, t, ch)
    else if InUnlink(t.pc) then UnlinkCode(s, t, ch)
    else if InCreate(t.pc) then CreateCode(s, t, ch)
    else MakeCode(s, t, ch)
  }

  /** The inode an effect changes. */
  function Target(e: Effect): (i: Option<nat>) {
    match e
    case Get(_, i) => Some(i)
    case Drop(_, i) => Some(i)
    case Acquire(_, i) => Some(i)
    case Release(_, i) => Some(i)
    case Update(i) => Some(i)
    case Wipe(i) => Some(i)
    case Invalidate(i) => Some(i)
    case Inc(i) => Some(i)
    case Dec(i) => Some(i)
    case DecDir(i) => Some(i)
    case IncDir(i, _) => Some(i)
    case SetOne(i) => Some(i)
    case SetZero(i) => Some(i)
    case Claim(i, _) => Some(i)
    case _ => None
  }

  /** What an effect of thread p makes of that inode. */
  function Changed(o: Ino, e: Effect, p: nat): (u: Ino) {
    match e
    case Get(_, _) => o.(ref := o.ref + 1, valid := o.ref > 0 && o.valid)
    case Drop(_, _) => o.(ref := if o.ref > 0 then o.ref - 1 else 0)
    case Acquire(_, _) => if o.valid then o.(lock := Some(p))
        else o.(lock := Some(p), valid := true, kind := o.dkind, nlink := o.dnlink)
    case Release(_, _) => o.(lock := None)
    case Update(_) => o.(dkind := o.kind, dnlink := o.nlink)
    case Wipe(_) => o.(kind := Free)
    case Invalidate(_) => o.(valid := false)
    case Inc(_) => o.(nlink := o.nlink + 1)
    case Dec(_) => o.(nlink := o.nlink - 1)
    case DecDir(_) => o.(nlink := o.nlink - 1)
    case IncDir(_, _) => o.(nlink := o.nlink + 1)
    case SetOne(_) => o.(nlink := 1)
    case SetZero(_) => o.(nlink := 0)
    case Claim(_, k) => o.(dkind := k, dnlink := 0)
    case _ => o
  }

  function Holding(b: Bits, r: R, yes: bool): (u: Bits) {
    match r case A => b.(ha := yes) case B => b.(hb := yes) case C => b.(hc := yes)
  }

  function Locking(b: Bits, r: R, yes: bool): (u: Bits) {
    match r case A => b.(la := yes) case B => b.(lb := yes) case C => b.(lc := yes)
  }

  function BitsAfter(b: Bits, e: Effect): (u: Bits) {
    match e
    case Get(r, _) => Holding(b, r, true)
    case Drop(r, _) => Holding(b, r, false)
    case Move(r, to, _) => Holding(Holding(b, r, false), to, true)
    case Keep(r, _, _) => Holding(b, r, false)
    case Reuse(_, r, _) => Holding(b, r, true)
    case Acquire(r, _) => Locking(b, r, true)
    case Release(r, _) => Locking(b, r, false)
    case _ => b
  }

  function HoldAfter(hold: map<Holder, nat>, e: Effect, p: nat): (h: map<Holder, nat>) {
    match e
    case Get(r, i) => hold[Reg(p, r) := i]
    case Drop(r, _) => hold - {Reg(p, r)}
    case Move(r, to, i) => (hold - {Reg(p, r)})[Reg(p, to) := i]
    case Keep(r, k, i) => (hold - {Reg(p, r)})[Base(k) := i]
    case Reuse(k, r, i) => (hold - {Base(k)})[Reg(p, r) := i]
    case _ => hold
  }

  /** Give what t counts over to u. */
  function Handed(links: map<Tok, nat>, t: Tok, u: Tok, i: nat): (r: map<Tok, nat>) {
    if t in links then (links - {t})[u := i] else links
  }

  function LinksAfter(s: State, e: Effect, p: nat): (l: map<Tok, nat>) {
    match e
    case Inc(i) => s.links[Pend(p) := i]
    case SetOne(i) => s.links[Pend(p) := i]
    case Dec(_) => s.links - {Pend(p)}
    case SetZero(_) => s.links - {Pend(p)}
    case DecDir(_) => s.links - {PendDir(p)}
    case IncDir(i, x) => if x in s.ents then s.links[Sub(s.ents[x].stamp) := i] else s.links
    case AddEnt(x, i) => if x.name.Plain? then Handed(s.links, Pend(p), Entry(s.next), i) else s.links
    case DelEnt(x) =>
      if x !in s.ents then s.links
      else Handed(Handed(s.links, Entry(s.ents[x].stamp), Pend(p), s.ents[x].target), Sub(s.ents[x].stamp), PendDir(p),
                  x.dir)
    case _ => s.links
  }

  function EntsAfter(s: State, e: Effect): (m: map<Ent, Link>) {
    match e
    case AddEnt(x, i) => s.ents[x := Link(i, s.next)]
    case DelEnt(x) => s.ents - {x}
    case Truncate(i) => map x | x in s.ents && x.dir != i :: s.ents[x]
    case _ => s.ents
  }

  /** An acquired lock was free; the inode is in the table. */
  predicate Enabled(s: State, e: Effect) {
    && (Target(e).Some? ==> Target(e).value < |s.inos|)
    && (e.Acquire? ==> s.inos[e.i].lock == None)
  }

  function InosAfter(s: State, p: nat, e: Effect): (inos: seq<Ino>) {
    var i := Target(e);
    if i.Some? && i.value < |s.inos| then s.inos[i.value := Changed(s.inos[i.value], e, p)] else s.inos
  }

  function After(s: State, p: nat, e: Effect, u: Thread): (t: State) {
    State(InosAfter(s, p, e), EntsAfter(s, e), if p < |s.threads| then s.threads[p := u] else s.threads,
          HoldAfter(s.hold, e, p), LinksAfter(s, e, p), if e.AddEnt? then s.next + 1 else s.next)
  }

  function Next(s: State, p: nat, ch: Choice): (t: Option<State>) {
    if p >= |s.threads| then None else
    match Code(s, s.threads[p], ch)
    case None => None
    case Some(op) =>
      if Enabled(s, op.effect) then Some(After(s, p, op.effect, op.next.(bits := BitsAfter(op.next.bits, op.effect))))
          else None
  }
}
