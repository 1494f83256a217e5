/** What the places of the program of LinkMachine imply: which references and locks a thread has
    there, where each effect comes from and where it leads. Nothing here is about other threads. */
module LinkTables {
  import opened Options
  import opened LinkMachine

  /** The place a chain of acts leads to. */
  function Dest(pc: Pc): (d: Pc) {
    if pc.Do? then Dest(pc.then') else pc
  }

  predicate Held(b: Bits, r: R) { match r case A => b.ha case B => b.hb case C => b.hc }

  predicate Locked(b: Bits, r: R) { match r case A => b.la case B => b.lb case C => b.lc }

  const NONE := Bits(false, false, false, false, false, false)
  const HELD_A := NONE.(ha := true)
  const HELD_B := NONE.(hb := true)
  const HELD_C := NONE.(hc := true)
  const HELD_AB := HELD_A.(hb := true)
  const HELD_AC := HELD_A.(hc := true)
  const LOCKED_A := HELD_A.(la := true)
  const LOCKED_B := HELD_B.(lb := true)
  const LOCKED_AB := Bits(true, true, false, true, true, false)

  /** References and locks at a place of the program. */
  function Expect(pc: Pc): (b: Bits) {
    match pc
    case Out => NONE
    case Panicked => NONE
    case WMore(g) => if g == LinkNew then HELD_AB else HELD_B
    case WTest(g) => if g == LinkNew then HELD_AB.(lb := true) else LOCKED_B
    case WShift(g) => if g == LinkNew then HELD_AC else HELD_C
    case LTest => LOCKED_A
    case LWalk => HELD_A
    case LDir => HELD_AB.(lb := true)
    case LBad => LOCKED_A
    case UName => LOCKED_B
    case UDec => LOCKED_A
    case CName => LOCKED_B
    case CAlloc => LOCKED_B
    case CGot => LOCKED_A
    case CIget => LOCKED_B
    case CEnd => HELD_A
    case UTest => LOCKED_AB
    case CInit => LOCKED_AB
    case _ => LOCKED_AB
  }

  /** What an act on pointer r needs, and leaves behind when it is over. */
  predicate Need(act: Act, r: R, b: Bits) {
    match act
    case Lock => Held(b, r) && !Locked(b, r)
    case Put => Held(b, r) && !Locked(b, r)
    case Unref => Held(b, r) && !Locked(b, r)
    case _ => Held(b, r) && Locked(b, r)
  }

  function Leaves(act: Act, r: R, b: Bits): (u: Bits) {
    match act
    case Lock => Locking(b, r, true)
    case Unlock => Locking(b, r, false)
    case Store => b
    case _ => Locking(Holding(b, r, false), r, false)
  }

  /** With references and locks b, the thread can go on from pc. */
  predicate Plan(pc: Pc, b: Bits) {
    if pc.Do? then Need(pc.act, pc.r, b) && Simple(pc.then') && Plan(pc.then', Leaves(pc.act, pc.r, b))
        else b == Expect(pc)
  }

  /** An act of a chain does not start in the middle of an iput. */
  predicate Simple(pc: Pc) { pc.Do? ==> pc.act == Lock || pc.act == Unlock || pc.act == Store || pc.act == Put }

  predicate Planned(t: Thread) { Plan(t.pc, t.bits) }

  lemma PlanIs(pc: Pc, b: Bits)
    ensures Plan(pc, b) ==
            if pc.Do? then Need(pc.act, pc.r, b) && Simple(pc.then') && Plan(pc.then', Leaves(pc.act, pc.r, b))
                else b == Expect(pc)
  {
  }

  predicate Continues(t: Thread, op: Op) { op.next.pc == Panicked || Plan(op.next.pc, BitsAfter(t.bits, op.effect)) }

  lemma DoPlan(s: State, t: Thread)
    requires t.pc.Do? && Planned(t)
    ensures Continues(t, DoCode(s, t, t.pc.act, t.pc.r, t.pc.then'))
  {
    hide InoAt, Plan, Expect, Holding, Locking;
    var r, th, b := t.pc.r, t.pc.then', t.bits;
    PlanIs(t.pc, b);
    LastAct(b, r);
    match t.pc.act {
      case Lock => assert Continues(t, DoCode(s, t, Lock, r, th));
      case Unlock => assert Continues(t, DoCode(s, t, Unlock, r, th));
      case Store => assert Continues(t, DoCode(s, t, Store, r, th));
      case Put => PlanIs(Do(Trunc, r, th), Locking(b, r, true)); assert Continues(t, DoCode(s, t, Put, r, th));
      case Trunc => PlanIs(Do(Clear, r, th), b); assert Continues(t, DoCode(s, t, Trunc, r, th));
      case Clear => PlanIs(Do(Save, r, th), b); assert Continues(t, DoCode(s, t, Clear, r, th));
      case Save => PlanIs(Do(Inval, r, th), b); assert Continues(t, DoCode(s, t, Save, r, th));
      case Inval => PlanIs(Do(FreeUnlock, r, th), b); assert Continues(t, DoCode(s, t, Inval, r, th));
      case FreeUnlock => PlanIs(Do(Unref, r, th), Locking(b, r, false)); assert Continues(t,
          DoCode(s, t, FreeUnlock, r, th));
      case Unref => assert Continues(t, DoCode(s, t, Unref, r, th));
    }
  }

  /** The two ways an iput ends leave the same behind. */
  lemma LastAct(b: Bits, r: R)
    requires Held(b, r)
    ensures !Locked(b, r) ==>
              Holding(b, r, false) == Leaves(Put, r, b) == Leaves(Unref, r, b) == Leaves(Trunc, r, Locking(b, r, true))
    ensures Leaves(FreeUnlock, r, b) == Leaves(Unref, r, Locking(b, r, false))
    ensures !Locked(b, r) ==> Held(Locking(b, r, true), r) && Locked(Locking(b, r, true), r)
    ensures Held(Locking(b, r, false), r) && !Locked(Locking(b, r, false), r)
  {
  }

  /** iunlockput. */
  lemma UnlockPutPlan(r: R, th: Pc, b: Bits)
    requires Held(b, r) && Locked(b, r) && Simple(th) && Plan(th, Leaves(Trunc, r, b))
    ensures Plan(UnlockPut(r, th), b) && Simple(UnlockPut(r, th))
  {
    hide Plan, Expect;
    var c := Leaves(Unlock, r, b);
    PlanIs(UnlockPut(r, th), b);
    PlanIs(Do(Put, r, th), c);
    assert Leaves(Put, r, c) == Leaves(Trunc, r, b);
  }

  lemma OutPlans()
    ensures Plan(Do(Put, A, Out), HELD_A) && Plan(Do(Put, B, Out), HELD_B)
    ensures Plan(UnlockPut(A, Out), LOCKED_A) && Plan(UnlockPut(B, Out), LOCKED_B)
    ensures Plan(UnlockPut(B, Do(Put, A, Out)), HELD_AB.(lb := true))
    ensures Plan(UnlockPut(A, UnlockPut(B, Out)), LOCKED_AB)
    ensures Plan(Do(Store, A, UnlockPut(A, Out)), LOCKED_A)
    ensures Plan(Do(Store, A, UnlockPut(A, UnlockPut(B, Out))), LOCKED_AB)
  {
    hide Plan, UnlockPut;
    PlanIs(Out, NONE);
    PlanIs(Do(Put, A, Out), HELD_A);
    PlanIs(Do(Put, B, Out), HELD_B);
    UnlockPutPlan(A, Out, LOCKED_A);
    UnlockPutPlan(B, Out, LOCKED_B);
    UnlockPutPlan(B, Do(Put, A, Out), HELD_AB.(lb := true));
    UnlockPutPlan(A, UnlockPut(B, Out), LOCKED_AB);
    PlanIs(Do(Store, A, UnlockPut(A, Out)), LOCKED_A);
    PlanIs(Do(Store, A, UnlockPut(A, UnlockPut(B, Out))), LOCKED_AB);
  }

  lemma ActPlan(act: Act, r: R, pc: Pc, b: Bits)
    requires !pc.Do? && Need(act, r, b) && Expect(pc) == Leaves(act, r, b)
    ensures Plan(Do(act, r, pc), b)
  {
    hide Plan, Expect;
    PlanIs(pc, Leaves(act, r, b));
    PlanIs(Do(act, r, pc), b);
  }

  lemma LinkPlans()
    ensures Plan(Do(Lock, A, LTest), HELD_A) && Plan(Do(Lock, A, LBad), HELD_A) && Plan(Do(Lock, B, LDir), HELD_AB)
    ensures Plan(UnlockPut(B, Do(Lock, A, LBad)), HELD_AB.(lb := true)) && Plan(Do(Put, B, Do(Lock, A, LBad)), HELD_AB)
    ensures Plan(Do(Store, A, Do(Unlock, A, LWalk)), LOCKED_A)
  {
    hide Plan, UnlockPut;
    ActPlan(Lock, A, LTest, HELD_A);
    ActPlan(Lock, A, LBad, HELD_A);
    ActPlan(Lock, B, LDir, HELD_AB);
    UnlockPutPlan(B, Do(Lock, A, LBad), HELD_AB.(lb := true));
    PlanIs(Do(Put, B, Do(Lock, A, LBad)), HELD_AB);
    ActPlan(Unlock, A, LWalk, LOCKED_A);
    PlanIs(Do(Store, A, Do(Unlock, A, LWalk)), LOCKED_A);
  }

  lemma UnlinkPlans()
    ensures Plan(Do(Lock, B, UName), HELD_B) && Plan(Do(Lock, A, UTest), LOCKED_B.(ha := true))
    ensures Plan(UnlockPut(B, UDec), LOCKED_AB) && Plan(Do(Store, B, UnlockPut(B, UDec)), LOCKED_AB)
  {
    hide Plan, UnlockPut;
    ActPlan(Lock, B, UName, HELD_B);
    ActPlan(Lock, A, UTest, LOCKED_B.(ha := true));
    PlanIs(UDec, LOCKED_A);
    UnlockPutPlan(B, UDec, LOCKED_AB);
    PlanIs(Do(Store, B, UnlockPut(B, UDec)), LOCKED_AB);
  }

  lemma CreatePlans()
    ensures Plan(Do(Lock, B, CName), HELD_B) && Plan(Do(Lock, A, CInit), LOCKED_B.(ha := true))
    ensures Plan(UnlockPut(B, Do(Lock, A, CGot)), HELD_AB.(lb := true)) && Plan(Do(Unlock, A, CEnd), LOCKED_A)
  {
    hide Plan, UnlockPut;
    ActPlan(Lock, A, CGot, HELD_A);
    ActPlan(Lock, A, CInit, LOCKED_B.(ha := true));
    ActPlan(Lock, B, CName, HELD_B);
    UnlockPutPlan(B, Do(Lock, A, CGot), HELD_AB.(lb := true));
    ActPlan(Unlock, A, CEnd, LOCKED_A);
  }

  lemma MakePlans()
    ensures Plan(UnlockPut(B, Do(Unlock, A, CEnd)), LOCKED_AB)
            && Plan(Do(Store, B, UnlockPut(B, Do(Unlock, A, CEnd))), LOCKED_AB)
    ensures Plan(Do(Store, A, CDot), LOCKED_AB) && Plan(Do(Store, A, CEnt), LOCKED_AB)
  {
    hide Plan, UnlockPut;
    ActPlan(Unlock, A, CEnd, LOCKED_A);
    UnlockPutPlan(B, Do(Unlock, A, CEnd), LOCKED_AB);
    PlanIs(Do(Store, B, UnlockPut(B, Do(Unlock, A, CEnd))), LOCKED_AB);
    ActPlan(Store, A, CDot, LOCKED_AB);
    ActPlan(Store, A, CEnt, LOCKED_AB);
  }

  lemma WalkPlans(g: Goal)
    ensures Plan(Do(Lock, B, WTest(g)), Expect(WMore(g)))
            && Plan(UnlockPut(B, WShift(g)), Expect(WTest(g)).(hc := true))
    ensures Plan(UnlockPut(B, Failed(g)), Expect(WTest(g))) && Plan(Do(Put, B, Failed(g)), Expect(WMore(g)))
    ensures Parent(g) ==> Plan(Do(Unlock, B, Found(g)), Expect(WTest(g)))
  {
    hide Plan, UnlockPut;
    LinkPlans();
    UnlinkPlans();
    CreatePlans();
    OutPlans();
    PlanIs(WTest(g), Expect(WTest(g)));
    PlanIs(WShift(g), Expect(WShift(g)));
    PlanIs(Do(Lock, B, WTest(g)), Expect(WMore(g)));
    UnlockPutPlan(B, WShift(g), Expect(WTest(g)).(hc := true));
    PlanIs(Do(Unlock, B, Found(g)), Expect(WTest(g)));
  }

  lemma WalkPlan(s: State, t: Thread, ch: Choice)
    requires WalkCode(s, t, ch).Some? && t.bits == Expect(t.pc)
    ensures Continues(t, WalkCode(s, t, ch).value)
  {
    hide IsEmpty, Linked, Source, InoAt, Plan, UnlockPut, Failed, Found;
    var op := WalkCode(s, t, ch).value;
    if !op.next.pc.Do? { PlanIs(op.next.pc, BitsAfter(t.bits, op.effect)); }
    OutPlans();
    LinkPlans();
    if t.pc.WMore? || t.pc.WTest? { WalkPlans(t.pc.g); }
  }

  lemma LinkPlan(s: State, t: Thread, ch: Choice)
    requires LinkCode(s, t, ch).Some? && t.bits == Expect(t.pc)
    ensures Continues(t, LinkCode(s, t, ch).value)
  {
    hide IsEmpty, Linked, Source, InoAt, Plan, UnlockPut;
    var op := LinkCode(s, t, ch).value;
    if !op.next.pc.Do? { PlanIs(op.next.pc, BitsAfter(t.bits, op.effect)); }
    OutPlans();
    LinkPlans();
  }

  lemma UnlinkPlan(s: State, t: Thread, ch: Choice)
    requires UnlinkCode(s, t, ch).Some? && t.bits == Expect(t.pc)
    ensures Continues(t, UnlinkCode(s, t, ch).value)
  {
    hide IsEmpty, Linked, Source, InoAt, Plan, UnlockPut;
    var op := UnlinkCode(s, t, ch).value;
    if !op.next.pc.Do? { PlanIs(op.next.pc, BitsAfter(t.bits, op.effect)); }
    OutPlans();
    UnlinkPlans();
  }

  lemma CreatePlan(s: State, t: Thread, ch: Choice)
    requires CreateCode(s, t, ch).Some? && t.bits == Expect(t.pc)
    ensures Continues(t, CreateCode(s, t, ch).value)
  {
    hide IsEmpty, Linked, Source, InoAt, Plan, UnlockPut;
    var op := CreateCode(s, t, ch).value;
    if !op.next.pc.Do? { PlanIs(op.next.pc, BitsAfter(t.bits, op.effect)); }
    OutPlans();
    CreatePlans();
  }

  lemma MakePlan(s: State, t: Thread, ch: Choice)
    requires MakeCode(s, t, ch).Some? && t.bits == Expect(t.pc)
    ensures Continues(t, MakeCode(s, t, ch).value)
  {
    hide IsEmpty, Linked, Source, InoAt, Plan, UnlockPut;
    var op := MakeCode(s, t, ch).value;
    if !op.next.pc.Do? { PlanIs(op.next.pc, BitsAfter(t.bits, op.effect)); }
    OutPlans();
    MakePlans();
  }

  lemma StepPlan(s: State, t: Thread, ch: Choice)
    requires Planned(t) && Code(s, t, ch).Some?
    ensures Continues(t, Code(s, t, ch).value)
  {
    hide Continues, Plan, DoCode, WalkCode, LinkCode, UnlinkCode, CreateCode, MakeCode;
    PlanIs(t.pc, t.bits);
    if t.pc.Do? {
      DoPlan(s, t);
    } else if InWalk(t.pc) {
      WalkPlan(s, t, ch);
    } else if InLink(t.pc) {
      LinkPlan(s, t, ch);
    } else if InUnlink(t.pc) {
      UnlinkPlan(s, t, ch);
    } else if InCreate(t.pc) {
      CreatePlan(s, t, ch);
    } else {
      MakePlan(s, t, ch);
    }
  }

  predicate SameRegs(t: Thread, u: Thread) { u.a == t.a && u.b == t.b && u.c == t.c }

  predicate OtherRegs(t: Thread, u: Thread, r: R) {
    (r == A || u.a == t.a) && (r == B || u.b == t.b) && (r == C || u.c == t.c)
  }

  predicate Owns(t: Thread, i: nat) {
    (t.bits.la && t.a == i) || (t.bits.lb && t.b == i) || (t.bits.lc && t.c == i)
  }

  /** Pointers and effects agree: what is put down was held, what is changed is locked. */
  predicate Handled(t: Thread, e: Effect, u: Thread) {
    match e
    case Get(r, i) => !Held(t.bits, r) && !Locked(t.bits, r) && RegOf(u, r) == i && OtherRegs(t, u, r)
    case Drop(r, i) => Held(t.bits, r) && !Locked(t.bits, r) && RegOf(t, r) == i && SameRegs(t, u)
    case Move(r, to, i) =>
      && Held(t.bits, r) && !Held(t.bits, to) && !Locked(t.bits, r) && !Locked(t.bits, to) && r != to
      && RegOf(t, r) == i == RegOf(u, to) && OtherRegs(t, u, to)
    case Keep(r, _, i) => Held(t.bits, r) && !Locked(t.bits, r) && RegOf(t, r) == i && SameRegs(t, u)
    case Reuse(_, r, i) => !Held(t.bits, r) && !Locked(t.bits, r) && RegOf(u, r) == i && OtherRegs(t, u, r)
    case Acquire(r, i) => Held(t.bits, r) && !Locked(t.bits, r) && RegOf(t, r) == i && SameRegs(t, u)
    case Release(r, i) => Held(t.bits, r) && Locked(t.bits, r) && RegOf(t, r) == i && SameRegs(t, u)
    case Claim(i, _) => !t.bits.ha && !t.bits.la && u.a == i && OtherRegs(t, u, A)
    case Quiet => SameRegs(t, u)
    case AddEnt(x, _) => Owns(t, x.dir) && SameRegs(t, u)
    case DelEnt(x) => Owns(t, x.dir) && SameRegs(t, u)
    case Truncate(i) => Owns(t, i) && SameRegs(t, u)
    case _ => Target(e).Some? && Owns(t, Target(e).value) && SameRegs(t, u)
  }

  lemma DoHandled(s: State, t: Thread)
    requires t.pc.Do? && Planned(t)
    ensures var op := DoCode(s, t, t.pc.act, t.pc.r, t.pc.then'); Handled(t, op.effect, op.next)
  {
    hide InoAt, Plan, Expect;
    PlanIs(t.pc, t.bits);
  }

  lemma WalkHandled(s: State, t: Thread, ch: Choice)
    requires WalkCode(s, t, ch).Some? && t.bits == Expect(t.pc)
    ensures var op := WalkCode(s, t, ch).value; Handled(t, op.effect, op.next)
  {
    hide IsEmpty, Linked, Source, InoAt, UnlockPut, Failed, Found;
  }

  lemma LinkHandled(s: State, t: Thread, ch: Choice)
    requires LinkCode(s, t, ch).Some? && t.bits == Expect(t.pc)
    ensures var op := LinkCode(s, t, ch).value; Handled(t, op.effect, op.next)
  {
    hide IsEmpty, Linked, Source, InoAt, UnlockPut;
  }

  lemma UnlinkHandled(s: State, t: Thread, ch: Choice)
    requires UnlinkCode(s, t, ch).Some? && t.bits == Expect(t.pc)
    ensures var op := UnlinkCode(s, t, ch).value; Handled(t, op.effect, op.next)
  {
    hide IsEmpty, Linked, Source, InoAt, UnlockPut;
  }

  lemma CreateHandled(s: State, t: Thread, ch: Choice)
    requires CreateCode(s, t, ch).Some? && t.bits == Expect(t.pc)
    ensures var op := CreateCode(s, t, ch).value; Handled(t, op.effect, op.next)
  {
    hide IsEmpty, Linked, Source, InoAt, UnlockPut;
  }

  lemma MakeHandled(s: State, t: Thread, ch: Choice)
    requires MakeCode(s, t, ch).Some? && t.bits == Expect(t.pc)
    ensures var op := MakeCode(s, t, ch).value; Handled(t, op.effect, op.next)
  {
    hide IsEmpty, Linked, Source, InoAt, UnlockPut;
  }

  lemma StepHandled(s: State, t: Thread, ch: Choice)
    requires Planned(t) && Code(s, t, ch).Some?
    ensures var op := Code(s, t, ch).value; Handled(t, op.effect, op.next) && op.next.bits == t.bits
  {
    hide Handled, Plan, DoCode, WalkCode, LinkCode, UnlinkCode, CreateCode, MakeCode;
    PlanIs(t.pc, t.bits);
    BitsLeft(s, t, ch);
    if t.pc.Do? {
      DoHandled(s, t);
    } else if InWalk(t.pc) {
      WalkHandled(s, t, ch);
    } else if InLink(t.pc) {
      LinkHandled(s, t, ch);
    } else if InUnlink(t.pc) {
      UnlinkHandled(s, t, ch);
    } else if InCreate(t.pc) {
      CreateHandled(s, t, ch);
    } else {
      MakeHandled(s, t, ch);
    }
  }

  lemma BitsLeft(s: State, t: Thread, ch: Choice)
    requires Code(s, t, ch).Some?
    ensures Code(s, t, ch).value.next.bits == t.bits
  {
    hide IsEmpty, Linked, Source, InoAt, UnlockPut, Failed, Found;
  }

  // ------------------------------------------------------------ where effects come from

  predicate SameWork(t: Thread, u: Thread) { u.name == t.name && u.kind == t.kind }

  /** Entry n of the directory b holds i, and is not ".." of a removed directory. */
  predicate Shows(s: State, b: nat, n: Nm, i: nat) {
    Ent(b, n) in s.ents && s.ents[Ent(b, n)].target == i && (n == DotDot ==> b == ROOT || Linked(s, b))
  }

  ghost predicate Sources(s: State, i: nat) { i == ROOT || exists k :: Base(k) in s.hold && s.hold[Base(k)] == i }

  ghost predicate GetTurn(s: State, t: Thread, r: R, i: nat, u: Thread) {
    match t.pc
    case Out => r == B && u.pc.WMore? && u.pc.g != LinkNew && Sources(s, i) && u.kind != Free
    case LWalk => r == B && u.pc == WMore(LinkNew) && Sources(s, i) && SameWork(t, u)
    case WTest(g) => r == C && Dest(u.pc) == WShift(g) && SameWork(t, u) && InoAt(s, t.b).kind == Dir
                     && exists n :: Shows(s, t.b, n, i)
    case UName => r == A && u.pc == Do(Lock, A, UTest) && Dest(u.pc) == UTest && u.kind == t.kind && u.name.Plain?
                  && Shows(s, t.b, u.name, i)
    case CName => r == A && Dest(u.pc) == CGot && SameWork(t, u) && exists n :: Shows(s, t.b, n, i)
    case CIget => r == A && u.pc == Do(Lock, A, CInit) && Dest(u.pc) == CInit && SameWork(t, u) && i == t.a
    case _ => false
  }

  predicate QuietTurn(s: State, t: Thread, u: Thread) {
    match t.pc
    case WMore(g) => (Dest(u.pc) == WTest(g) || Dest(u.pc) == Dest(Failed(g))) && SameWork(t, u)
    case WTest(g) =>
      && SameWork(t, u)
      && (Dest(u.pc) == Dest(Failed(g)) || (Parent(g) && Dest(u.pc) == Dest(Found(g)) && InoAt(s, t.b).kind == Dir))
    case LTest => Dest(u.pc) == Out && SameWork(t, u)
    case LDir => Dest(u.pc) == LBad && SameWork(t, u)
    case UName => Dest(u.pc) == Out && SameWork(t, u)
    case UTest => Dest(u.pc) == Out && SameWork(t, u)
    case CName => u.pc == CAlloc && u.kind == t.kind && Ent(t.b, u.name) !in s.ents
    case CGot => SameWork(t, u) && (Dest(u.pc) == Out
                                    || (Dest(u.pc) == CEnd && t.kind == File && InoAt(s, t.a).kind == File))
    case CAlloc => Dest(u.pc) == Out && SameWork(t, u)
    case CDot => u.pc == CFail && SameWork(t, u)
    case CDotDot => u.pc == CFail && SameWork(t, u)
    case CEnt => u.pc == CFail && SameWork(t, u)
    case CEnd => Dest(u.pc) == Out && SameWork(t, u)
    case _ => false
  }

  predicate AddTurn(s: State, t: Thread, x: Ent, i: nat, u: Thread) {
    && SameWork(t, u) && x !in s.ents
    && match t.pc
       case LDir => Dest(u.pc) == Out && x.dir == t.b && i == t.a
       case CDot => u.pc == CDotDot && x == Ent(t.a, Dot) && i == t.a
       case CDotDot => u.pc == CEnt && x == Ent(t.a, DotDot) && i == t.b
       case CEnt =>
         && x == Ent(t.b, t.name) && i == t.a
         && if t.kind == Dir then u.pc == CPlus && Dest(u.pc) == CPlus else Dest(u.pc) == CEnd
       case _ => false
  }

  /** From which place each effect of the program proper comes, and where it leads. */
  ghost predicate Turn(s: State, t: Thread, e: Effect, u: Thread) {
    match e
    case Quiet => QuietTurn(s, t, u)
    case Get(r, i) => GetTurn(s, t, r, i, u)
    case AddEnt(x, i) => AddTurn(s, t, x, i, u)
    case Move(r, to, i) =>
      SameWork(t, u) && ((t.pc == WMore(LinkOld) && Dest(u.pc) == LTest && to == A)
                         || (t.pc.WShift? && u.pc == WMore(t.pc.g) && r == C && to == B))
    case Keep(r, _, _) => SameWork(t, u) && u.pc == Out
                          && ((t.pc == WMore(Open) && r == B) || (t.pc == CEnd && r == A && t.kind == File))
    case Reuse(_, r, _) => t.pc == Out && Dest(u.pc) == Out && r == A
    case Inc(i) => SameWork(t, u) && t.pc == LTest && u.pc == Do(Store, A, Do(Unlock, A, LWalk)) && Dest(u.pc) == LWalk
                   && i == t.a && InoAt(s, i).kind != Dir
    case Dec(i) => SameWork(t, u) && (t.pc == LBad || t.pc == UDec) && u.pc == Do(Store, A, UnlockPut(A, Out))
                   && Dest(u.pc) == Out && i == t.a
    case DecDir(i) => SameWork(t, u) && t.pc == UDecDir && u.pc == Do(Store, B, UnlockPut(B, UDec))
                      && Dest(u.pc) == UDec && i == t.b
    case IncDir(i, x) =>
      && SameWork(t, u) && t.pc == CPlus && u.pc == Do(Store, B, UnlockPut(B, Do(Unlock, A, CEnd)))
         && Dest(u.pc) == CEnd
      && i == t.b && x == Ent(t.b, t.name)
    case SetOne(i) =>
      var d := if t.kind == Dir then CDot else CEnt;
      SameWork(t, u) && t.pc == CInit && u.pc == Do(Store, A, d) && Dest(u.pc) == d && i == t.a
    case SetZero(i) => SameWork(t, u) && t.pc == CFail && u.pc == Do(Store, A, UnlockPut(A, UnlockPut(B, Out)))
                       && Dest(u.pc) == Out && i == t.a
    case DelEnt(x) =>
      && SameWork(t, u) && t.pc == UTest && x == Ent(t.b, t.name) && InoAt(s, t.a).nlink >= 1
      && (if InoAt(s, t.a).kind == Dir then u.pc == UDecDir && Dest(u.pc) == UDecDir
          else u.pc == UnlockPut(B, UDec) && Dest(u.pc) == UDec)
    case Claim(i, k) => SameWork(t, u) && t.pc == CAlloc && u.pc == CIget && InoAt(s, i).dkind == Free && k == t.kind
    case _ => false
  }

  lemma DestUnlockPut(r: R, th: Pc)
    ensures Dest(UnlockPut(r, th)) == Dest(th)
  {
    assert Dest(Do(Put, r, th)) == Dest(th);
  }

  lemma DestDo(act: Act, r: R, th: Pc)
    ensures Dest(Do(act, r, th)) == Dest(th)
  {
  }

  lemma DestAt(pc: Pc)
    requires !pc.Do?
    ensures Dest(pc) == pc
  {
  }

  lemma WalkTurn(s: State, t: Thread, ch: Choice)
    requires WalkCode(s, t, ch).Some?
    ensures var op := WalkCode(s, t, ch).value; Turn(s, t, op.effect, op.next)
  {
    hide IsEmpty, Linked, InoAt, Failed, Found, UnlockPut, Dest;
    DestAt(Out);
    DestDo(Put, A, Out);
    DestAt(LTest);
    DestDo(Lock, A, LTest);
    if t.pc.WMore? || t.pc.WTest? {
      var g := t.pc.g;
      DestAt(WTest(g));
      DestAt(WShift(g));
      DestDo(Lock, B, WTest(g));
      DestDo(Put, B, Failed(g));
      DestDo(Unlock, B, Found(g));
      DestUnlockPut(B, Failed(g));
      DestUnlockPut(B, WShift(g));
    }
    if t.pc.WTest? && ch.Name? && Ent(t.b, ch.n) in s.ents && !(ch.n == DotDot && t.b != ROOT && !Linked(s, t.b)) {
      assert Shows(s, t.b, ch.n, s.ents[Ent(t.b, ch.n)].target);
    }
  }

  lemma LinkTurn(s: State, t: Thread, ch: Choice)
    requires LinkCode(s, t, ch).Some?
    ensures var op := LinkCode(s, t, ch).value; Turn(s, t, op.effect, op.next)
  {
    hide IsEmpty, Linked, InoAt, UnlockPut, Dest;
    DestAt(LWalk);
    DestDo(Unlock, A, LWalk);
    DestDo(Store, A, Do(Unlock, A, LWalk));
    DestDo(Store, A, UnlockPut(A, Out));
    DestAt(Out);
    DestAt(LBad);
    DestDo(Lock, A, LBad);
    DestDo(Put, A, Out);
    DestUnlockPut(A, Out);
    DestUnlockPut(B, Do(Lock, A, LBad));
    DestUnlockPut(B, Do(Put, A, Out));
  }

  lemma UnlinkTurn(s: State, t: Thread, ch: Choice)
    requires UnlinkCode(s, t, ch).Some?
    ensures var op := UnlinkCode(s, t, ch).value; op.next.pc == Panicked || Turn(s, t, op.effect, op.next)
  {
    hide IsEmpty, Linked, InoAt, UnlockPut, Dest;
    DestAt(UDec);
    DestAt(UDecDir);
    DestUnlockPut(B, UDec);
    DestDo(Store, B, UnlockPut(B, UDec));
    DestUnlockPut(A, Out);
    DestDo(Store, A, UnlockPut(A, Out));
    DestAt(Out);
    DestAt(UTest);
    DestDo(Lock, A, UTest);
    DestUnlockPut(B, Out);
    DestUnlockPut(A, UnlockPut(B, Out));
  }

  lemma CreateTurn(s: State, t: Thread, ch: Choice)
    requires CreateCode(s, t, ch).Some?
    ensures var op := CreateCode(s, t, ch).value; Turn(s, t, op.effect, op.next)
  {
    hide IsEmpty, Linked, UnlockPut, Dest;
    DestAt(Out);
    DestAt(CGot);
    DestAt(CInit);
    DestAt(CEnd);
    DestDo(Lock, A, CGot);
    DestDo(Lock, A, CInit);
    DestDo(Unlock, A, CEnd);
    DestDo(Put, A, Out);
    DestUnlockPut(A, Out);
    DestUnlockPut(B, Out);
    DestUnlockPut(B, Do(Lock, A, CGot));
    if t.pc.CName? && ch.Name? && Ent(t.b, ch.n) in s.ents && !(ch.n == DotDot && t.b != ROOT && !Linked(s, t.b)) {
      assert Shows(s, t.b, ch.n, s.ents[Ent(t.b, ch.n)].target);
    }
  }

  lemma MakeTurn(s: State, t: Thread, ch: Choice)
    requires MakeCode(s, t, ch).Some?
    ensures var op := MakeCode(s, t, ch).value; Turn(s, t, op.effect, op.next)
  {
    hide IsEmpty, Linked, InoAt, UnlockPut, Dest;
    DestAt(Out);
    DestAt(CDot);
    DestAt(CEnt);
    DestDo(Store, A, CDot);
    DestDo(Store, A, CEnt);
    DestUnlockPut(B, Out);
    DestUnlockPut(A, UnlockPut(B, Out));
    DestDo(Store, A, UnlockPut(A, UnlockPut(B, Out)));
    DestDo(Store, B, UnlockPut(B, Do(Unlock, A, CEnd)));
    DestAt(CEnd);
    DestAt(CPlus);
    DestDo(Unlock, A, CEnd);
    DestUnlockPut(B, Do(Unlock, A, CEnd));
  }

  lemma StepTurn(s: State, t: Thread, ch: Choice)
    requires Code(s, t, ch).Some? && !t.pc.Do?
    ensures var op := Code(s, t, ch).value; op.next.pc == Panicked || Turn(s, t, op.effect, op.next)
  {
    hide Turn, WalkCode, LinkCode, UnlinkCode, CreateCode, MakeCode;
    if InWalk(t.pc) {
      WalkTurn(s, t, ch);
    } else if InLink(t.pc) {
      LinkTurn(s, t, ch);
    } else if InUnlink(t.pc) {
      UnlinkTurn(s, t, ch);
    } else if InCreate(t.pc) {
      CreateTurn(s, t, ch);
    } else {
      MakeTurn(s, t, ch);
    }
  }

  ghost predicate DoTurn(s: State, t: Thread, e: Effect, u: Thread) {
    t.pc.Do? &&
    var op := DoCode(s, t, t.pc.act, t.pc.r, t.pc.then');
    e == op.effect && u.pc == op.next.pc && SameWork(t, u)
  }

  /** No chain of acts leads to a panic, or to a place that is entered directly. */
  predicate Leads(pc: Pc) {
    var d := Dest(pc);
    && d != Panicked && (pc.Do? ==> d != UDecDir && d != CDotDot && d != CPlus)
    && (Gripping(d) ==> NearBy(pc)) && (pc.Do? && d == CEnt ==> pc.act == Store)
  }

  /** The places where the thread relies on entries it has seen or made, and so keeps its locks. */
  predicate Gripping(d: Pc) {
    d.UTest? || d.CAlloc? || d.CIget? || d.CInit? || d.CDot? || d.CDotDot? || d.CEnt? || d.CPlus? || d.CFail?
  }

  /** At most one act away, and that on ip. */
  predicate NearBy(pc: Pc) { pc.Do? ==> !pc.then'.Do? && pc.r == A && (pc.act == Lock || pc.act == Store) }

  /** Files are opened under numbers not in use, and closed under numbers in use. */
  predicate Files(s: State, e: Effect) {
    && (e.Keep? ==> Base(e.k) !in s.hold)
    && (e.Reuse? ==> Base(e.k) in s.hold && s.hold[Base(e.k)] == e.i)
  }

  lemma StepFiles(s: State, t: Thread, ch: Choice)
    requires Code(s, t, ch).Some?
    ensures Files(s, Code(s, t, ch).value.effect)
  {
    hide IsEmpty, Linked, Source, InoAt, UnlockPut, Failed, Found;
  }

  lemma SimpleTurn(s: State, t: Thread, ch: Choice)
    requires Code(s, t, ch).Some? && !t.pc.Do?
    ensures Simple(Code(s, t, ch).value.next.pc)
  {
    hide IsEmpty, Linked, Source, InoAt;
  }

  /** Only unlink's test of nlink and ilock of a free inode panic. */
  lemma Calm(s: State, t: Thread, ch: Choice)
    requires Code(s, t, ch).Some? && (t.pc.Do? ==> t.pc.then' != Panicked)
    requires t.pc == UTest ==> InoAt(s, t.a).nlink >= 1
    requires t.pc.Do? && t.pc.act == Lock ==> InoAt(s, RegOf(t, t.pc.r)).dkind != Free
    ensures Code(s, t, ch).value.next.pc != Panicked
  {
    hide IsEmpty, Linked, Source, Failed, Found, InoAt;
  }

  lemma DoDest(s: State, t: Thread, e: Effect, u: Thread)
    requires DoTurn(s, t, e, u) && u.pc != Panicked
    ensures Dest(u.pc) == Dest(t.pc)
  {
    hide InoAt;
  }

  /** A link that the thread has counted but not entered, or erased but not discounted. */
  predicate Pending(d: Pc) {
    || ((d.WMore? || d.WTest? || d.WShift?) && d.g == LinkNew)
    || d.LWalk? || d.LDir? || d.LBad? || d.UDecDir? || d.UDec? || d.CDot? || d.CDotDot? || d.CEnt? || d.CFail?
  }

  /** A new inode that only the thread knows. */
  predicate Making(d: Pc) { d.CIget? || d.CInit? || d.CDot? || d.CDotDot? || d.CEnt? || d.CFail? }

  /** sys_link at work on a file. */
  predicate Linking(d: Pc) {
    ((d.WMore? || d.WTest? || d.WShift?) && d.g == LinkNew) || d.LWalk? || d.LDir? || d.LBad?
  }

  /** nameiparent has found the directory. */
  predicate InDir(d: Pc) {
    d.LDir? || d.UName? || d.UTest? || d.UDecDir? || d.CName? || d.CAlloc? || d.CPlus? || Making(d)
  }

  /** How each effect changes whether the thread has a link in hand. */
  predicate PendTurn(t: Thread, e: Effect, u: Thread) {
    var was, now := Pending(Dest(t.pc)), Pending(Dest(u.pc));
    match e
    case Inc(i) => !was && now && i == t.a == u.a && t.pc != UDecDir && u.pc != UDecDir
    case SetOne(i) => !was && now && i == t.a == u.a && t.pc != UDecDir && u.pc != UDecDir
    case Dec(i) => was && !now && i == t.a && t.pc != UDecDir && u.pc != UDecDir
    case SetZero(i) => was && !now && i == t.a && t.pc != UDecDir && u.pc != UDecDir
    case DecDir(i) => was && now && i == t.b && u.a == t.a && t.pc == UDecDir && u.pc != UDecDir
    case AddEnt(x, i) =>
      && t.pc != UDecDir && u.pc != UDecDir && was && u.a == t.a
      && (if t.pc == LDir || t.pc == CEnt then !now && i == t.a else now && !x.name.Plain?)
    case DelEnt(x) => !was && now && u.a == t.a && u.b == t.b == x.dir && t.pc != UDecDir
    case _ => now == was && (was ==> u.a == t.a) && t.pc != UDecDir && u.pc != UDecDir
  }

  lemma DestFound(pc: Pc)
    ensures pc.WMore? || pc.WTest? ==>
              && Dest(Failed(pc.g)) == (if pc.g == LinkNew then LBad else Out)
              && (Parent(pc.g) ==>
                    Dest(Found(pc.g)) == if pc.g == LinkNew then LDir else if pc.g == Unlink then UName else CName)
  {
  }

  /** How far an itable entry may be from the disk, by what its lock's owner is doing to it. */
  datatype Dirt = Clean | Dirty | Cleared | Stored

  function DirtOf(t: Thread, i: nat): (d: Dirt) {
    if !t.pc.Do? || RegOf(t, t.pc.r) != i then Clean
    else match t.pc.act
         case Store => Dirty
         case Save => Cleared
         case Inval => Stored
         case _ => Clean
  }

  // ------------------------------------------------------------ one step of a thread

  /** A step of the program of thread t. */
  ghost predicate Moves(s: State, t: Thread, e: Effect, u: Thread) {
    && Enabled(s, e) && Files(s, e) && Handled(t, e, u) && u.bits == BitsAfter(t.bits, e)
    && Planned(t) && Leads(t.pc) && Planned(u) && Leads(u.pc) && u.pc != Panicked
    && if t.pc.Do? then DoTurn(s, t, e, u) else Turn(s, t, e, u) && Simple(u.pc)
  }

  lemma MovesTo(s: State, t: Thread, ch: Choice) returns (e: Effect, u: Thread)
    requires Planned(t) && Leads(t.pc) && Code(s, t, ch).Some?
    requires var op := Code(s, t, ch).value; Enabled(s, op.effect) && op.next.pc != Panicked
    ensures Moves(s, t, e, u)
    ensures var op := Code(s, t, ch).value; e == op.effect && u == op.next.(bits := BitsAfter(op.next.bits, e))
  {
    hide Plan, Leads, Turn, Handled, Files, Enabled, WalkCode, LinkCode, UnlinkCode, CreateCode, MakeCode, DoCode,
      Simple, BitsAfter;
    var op := Code(s, t, ch).value;
    e, u := op.effect, op.next.(bits := BitsAfter(op.next.bits, op.effect));
    StepPlan(s, t, ch);
    StepHandled(s, t, ch);
    HandledBits(t, e, op.next, u);
    StepFiles(s, t, ch);
    if t.pc.Do? {
      DoWork(s, t, t.pc.act, t.pc.r, t.pc.then');
      DoLeads(s, t, e, u);
    } else {
      StepTurn(s, t, ch);
      SimpleTurn(s, t, ch);
      TurnBits(s, t, e, op.next, u);
      TurnLeads(s, t, e, u);
    }
  }

  lemma HandledBits(t: Thread, e: Effect, n: Thread, u: Thread)
    requires Handled(t, e, n) && u == n.(bits := u.bits)
    ensures Handled(t, e, u)
  {
    hide Held, Locked, Owns;
  }

  lemma TurnBits(s: State, t: Thread, e: Effect, n: Thread, u: Thread)
    requires Turn(s, t, e, n) && u == n.(bits := u.bits)
    ensures Turn(s, t, e, u)
  {
    hide Dest, Shows, Sources, InoAt, UnlockPut;
  }

  lemma DoWork(s: State, t: Thread, act: Act, r: R, th: Pc)
    ensures SameWork(t, DoCode(s, t, act, r, th).next)
  {
    hide InoAt;
  }

  lemma DoLeads(s: State, t: Thread, e: Effect, u: Thread)
    requires DoTurn(s, t, e, u) && Leads(t.pc) && u.pc != Panicked
    ensures Leads(u.pc)
  {
    hide InoAt, Dest;
    DoDest(s, t, e, u);
    if !u.pc.Do? { DestAt(u.pc); }
  }

  lemma TurnLeads(s: State, t: Thread, e: Effect, u: Thread)
    requires Turn(s, t, e, u) && !t.pc.Do?
    ensures Leads(u.pc)
  {
    hide InoAt, Dest, Shows, Sources, UnlockPut, SameWork;
    if !u.pc.Do? { DestAt(u.pc); }
    DestFound(t.pc);
  }

  /** The parts of a step. */
  lemma Parts(s: State, t: Thread, e: Effect, u: Thread)
    requires Moves(s, t, e, u)
    ensures Enabled(s, e) && Files(s, e) && Handled(t, e, u) && u.bits == BitsAfter(t.bits, e)
    ensures Planned(t) && Leads(t.pc) && Planned(u) && Leads(u.pc) && u.pc != Panicked
    ensures if t.pc.Do? then DoTurn(s, t, e, u) else Turn(s, t, e, u) && Simple(u.pc)
  {
    hide Enabled, Files, Handled, Plan, Leads, Turn, DoTurn, Simple, BitsAfter;
  }

  lemma DoPends(s: State, t: Thread, e: Effect, u: Thread)
    requires DoTurn(s, t, e, u) && Handled(t, e, u) && u.pc != Panicked && Dest(t.pc) != UDecDir
    ensures PendTurn(t, e, u)
  {
    hide InoAt, Pending, Dest;
    DoDest(s, t, e, u);
    if !u.pc.Do? { DestAt(u.pc); }
  }

  lemma BasePends(s: State, t: Thread, e: Effect, u: Thread)
    requires Turn(s, t, e, u) && Handled(t, e, u) && !t.pc.Do?
    ensures PendTurn(t, e, u)
  {
    hide InoAt, Dest, Shows, Sources, Held, Locked, Owns, UnlockPut;
    DestAt(t.pc);
    if !u.pc.Do? { DestAt(u.pc); }
    DestFound(t.pc);
  }

  lemma Pends(s: State, t: Thread, e: Effect, u: Thread)
    requires Moves(s, t, e, u)
    ensures PendTurn(t, e, u)
  {
    hide Moves, PendTurn, Turn, DoTurn, Handled, Plan, Dest, Simple, Enabled, Files, NearBy, Gripping, BitsAfter;
    Parts(s, t, e, u);
    if t.pc.Do? { DoPends(s, t, e, u); } else { BasePends(s, t, e, u); }
  }

  lemma ThenSimple(t: Thread)
    requires Planned(t) && t.pc.Do?
    ensures Simple(t.pc.then') && Need(t.pc.act, t.pc.r, t.bits)
  {
  }

  /** What the thread is doing to an inode other than the one its step changes. */
  lemma DirtElse(s: State, t: Thread, e: Effect, u: Thread, j: nat)
    requires Moves(s, t, e, u) && Target(e) != Some(j)
    ensures DirtOf(t, j) == Clean && (DirtOf(u, j) == Clean || DirtOf(u, j) == Dirty)
  {
    hide Moves, Turn, InoAt, Held, Locked, Owns, Plan, Files, Enabled, Leads, BitsAfter, Handled;
    Parts(s, t, e, u);
    if t.pc.Do? {
      ThenSimple(t);
      DoRegs(s, t, e, u);
    }
  }

  /** Only iput, ilock, iunlock and iupdate run inside a chain, and they leave the pointers alone. */
  lemma DoRegs(s: State, t: Thread, e: Effect, u: Thread)
    requires DoTurn(s, t, e, u) && Handled(t, e, u)
    ensures SameRegs(t, u) && !Counting(e) && !e.Get? && !e.Claim? && !e.Keep? && !e.Move? && !e.Reuse? && !e.AddEnt?
            && !e.DelEnt?
  {
    hide InoAt, Held, Locked, Owns;
  }

  /** Effects that change what nlink counts. */
  predicate Counting(e: Effect) {
    e.Inc? || e.Dec? || e.DecDir? || e.IncDir? || e.SetOne? || e.SetZero? || e.DelEnt? || (e.AddEnt? && e.e.name.Plain?)
  }

  predicate Saves(t: Thread, e: Effect) { t.pc.Do? && t.pc.act == Save && e == Update(RegOf(t, t.pc.r)) }

  predicate Stores(t: Thread, e: Effect) { t.pc.Do? && t.pc.act == Store && e == Update(RegOf(t, t.pc.r)) }

  /** What it does to the one its step changes. */
  predicate DirtTurn(t: Thread, e: Effect, u: Thread, j: nat) {
    && (e.Update? ==> Saves(t, e) || Stores(t, e))
    && DirtOf(t, j) == (if Stores(t, e) then Dirty else if Saves(t, e) then Cleared else if e.Invalidate? then Stored
                        else Clean)
    && (e.Wipe? ==> DirtOf(u, j) == Cleared)
    && (Saves(t, e) ==> DirtOf(u, j) == Stored)
    && (Counting(e) ==> DirtOf(u, j) == Dirty)
    && (!e.Wipe? && !e.Invalidate? && !Saves(t, e) ==> DirtOf(u, j) == Clean || DirtOf(u, j) == Dirty)
  }

  lemma DoDirt(s: State, t: Thread, e: Effect, u: Thread, j: nat)
    requires DoTurn(s, t, e, u) && SameRegs(t, u) && Simple(t.pc.then') && Target(e) == Some(j)
    ensures DirtTurn(t, e, u, j)
  {
    hide InoAt;
  }

  lemma BaseDirt(s: State, t: Thread, e: Effect, u: Thread, j: nat)
    requires Turn(s, t, e, u) && Simple(u.pc) && Handled(t, e, u) && !t.pc.Do? && Target(e) == Some(j)
    ensures DirtTurn(t, e, u, j)
  {
    hide InoAt, Held, Locked, Owns, UnlockPut, Dest, Shows, Sources, SameWork;
  }

  lemma DirtHere(s: State, t: Thread, e: Effect, u: Thread, j: nat)
    requires Moves(s, t, e, u) && Target(e) == Some(j)
    ensures DirtTurn(t, e, u, j)
  {
    hide Moves, DirtTurn, Turn, DoTurn, Handled, Plan, Files, Enabled, Leads, BitsAfter, Simple, SameRegs, Counting;
    Parts(s, t, e, u);
    if t.pc.Do? {
      ThenSimple(t);
      DoRegs(s, t, e, u);
      DoDirt(s, t, e, u, j);
    } else {
      BaseDirt(s, t, e, u, j);
    }
  }

  predicate GivingUp(pc: Pc, r: R) { pc.Do? && pc.r == r && pc.act == FreeUnlock }

  /** iput has given up the inode of pointer r, which may be another file by now. */
  predicate SpentAt(pc: Pc, r: R) {
    pc.Do? && pc.r == r && (pc.act == Inval || pc.act == FreeUnlock || pc.act == Unref)
  }

  /** iput has emptied the inode of pointer r. */
  predicate LostAt(pc: Pc, r: R) { pc.Do? && pc.r == r && (pc.act == Clear || pc.act == Save || SpentAt(pc, r)) }

  /** iput has decided to free the inode of its pointer and has not yet written that down. */
  predicate Freeing(pc: Pc) { pc.Do? && (pc.act == Trunc || pc.act == Clear || pc.act == Save) }

  /** How iput goes through the stages of freeing. */
  predicate StageTurn(s: State, t: Thread, e: Effect, u: Thread, r: R) {
    && (GivingUp(u.pc, r) <==> e.Invalidate? && t.pc.Do? && t.pc.r == r)
    && (e.Invalidate? ==> t.pc.Do? && e.i == RegOf(t, t.pc.r) && t.pc.act == Inval)
    && (GivingUp(t.pc, r) ==> e.Release? && e.r == r)
    && (SpentAt(t.pc, r) ==> (e.Drop? && e.r == r) || SpentAt(u.pc, r))
    && (SpentAt(u.pc, r) ==> SpentAt(t.pc, r) || (Saves(t, e) && t.pc.r == r))
    && (LostAt(t.pc, r) ==> (e.Drop? && e.r == r) || LostAt(u.pc, r))
    && (LostAt(u.pc, r) ==> LostAt(t.pc, r) || (e.Truncate? && t.pc.Do? && t.pc.r == r))
    && (e.Truncate? ==> t.pc.Do? && t.pc.act == Trunc && e.i == RegOf(t, t.pc.r) && LostAt(u.pc, t.pc.r))
    && (Saves(t, e) ==> SpentAt(u.pc, t.pc.r))
    && (e.Wipe? ==> t.pc.Do? && t.pc.act == Clear && e.i == RegOf(t, t.pc.r))
  }

  predicate FreeTurn(s: State, t: Thread, e: Effect, u: Thread) {
    Freeing(u.pc) ==>
      && t.pc.Do? && u.pc.r == t.pc.r && RegOf(u, u.pc.r) == RegOf(t, t.pc.r)
      && (if u.pc.act == Trunc
          then var o := InoAt(s, RegOf(t, t.pc.r)); e == Acquire(t.pc.r, RegOf(t, t.pc.r)) && o.ref == 1 && o.valid
                                                    && o.nlink == 0
          else Freeing(t.pc) && (if t.pc.act == Trunc then e == Truncate(RegOf(t, t.pc.r)) else e.Wipe?))
  }

  lemma DoStages(s: State, t: Thread, e: Effect, u: Thread, r: R)
    requires DoTurn(s, t, e, u) && SameRegs(t, u) && Simple(t.pc.then') && u.pc != Panicked
    ensures StageTurn(s, t, e, u, r) && FreeTurn(s, t, e, u)
  {
    hide InoAt;
  }

  lemma BaseStages(s: State, t: Thread, e: Effect, u: Thread, r: R)
    requires Turn(s, t, e, u) && Simple(u.pc) && !t.pc.Do?
    ensures StageTurn(s, t, e, u, r) && FreeTurn(s, t, e, u)
  {
    hide InoAt, UnlockPut, Dest, Shows, Sources, SameWork, QuietTurn, GetTurn, AddTurn;
  }

  lemma Stages(s: State, t: Thread, e: Effect, u: Thread, r: R)
    requires Moves(s, t, e, u)
    ensures StageTurn(s, t, e, u, r) && FreeTurn(s, t, e, u)
  {
    hide Moves, StageTurn, FreeTurn, Turn, DoTurn, Handled, Plan, Files, Enabled, Leads, BitsAfter, Simple, SameRegs,
      Counting;
    Parts(s, t, e, u);
    if t.pc.Do? {
      ThenSimple(t);
      DoRegs(s, t, e, u);
      DoStages(s, t, e, u, r);
    } else {
      BaseStages(s, t, e, u, r);
    }
  }

  /** How a thread comes to have a directory, a file, or a new inode in hand. */
  predicate PhaseTurn(s: State, t: Thread, e: Effect, u: Thread) {
    var d, v := Dest(t.pc), Dest(u.pc);
    && (v != Out ==> u.kind != Free || (d != Out && u.kind == t.kind))
    && (InDir(v) ==> u.b == t.b && (InDir(d) || (t.pc.WTest? && InoAt(s, t.b).kind == Dir)))
    && (Linking(v) ==> u.a == t.a && (Linking(d) || (e.Inc? && t.pc == LTest && InoAt(s, t.a).kind != Dir)))
    && (Making(v) ==> u.kind == t.kind && ((Making(d) && u.a == t.a) || (e.Claim? && u.a == e.i)))
    && (v == CPlus ==> u.a == t.a && u.kind == t.kind && (d == CPlus || t.pc == CEnt))
    && (v == CEnd && u.kind == File ==>
          u.a == t.a && u.kind == t.kind && (d == CEnd || (t.pc == CGot && InoAt(s, t.a).kind == File) || Making(d)
                                             || d == CPlus))
    && (e.Claim? ==> t.pc == CAlloc && InoAt(s, e.i).dkind == Free && e.kind == t.kind)
    && (e.Keep? && e.r == A ==> d == CEnd && t.kind == File)
  }

  lemma DoPhases(s: State, t: Thread, e: Effect, u: Thread)
    requires DoTurn(s, t, e, u) && Handled(t, e, u) && u.pc != Panicked
    ensures PhaseTurn(s, t, e, u)
  {
    hide InoAt, Dest, InDir, Linking, Making, DoTurn, Handled;
    DoDest(s, t, e, u);
    DoRegs(s, t, e, u);
    assert SameWork(t, u) by { DoSame(s, t, e, u); }
  }

  lemma DoSame(s: State, t: Thread, e: Effect, u: Thread)
    requires DoTurn(s, t, e, u)
    ensures SameWork(t, u)
  {
  }

  lemma BasePhases(s: State, t: Thread, e: Effect, u: Thread)
    requires Turn(s, t, e, u) && Handled(t, e, u) && !t.pc.Do?
    ensures PhaseTurn(s, t, e, u)
  {
    hide InoAt, Dest, Shows, Sources, Held, Locked, Owns, UnlockPut;
    DestAt(t.pc);
    if !u.pc.Do? { DestAt(u.pc); }
    DestFound(t.pc);
  }

  lemma Phases(s: State, t: Thread, e: Effect, u: Thread)
    requires Moves(s, t, e, u)
    ensures PhaseTurn(s, t, e, u)
  {
    hide Moves, PhaseTurn, Turn, DoTurn, Handled, Plan, Files, Enabled, Leads, BitsAfter, Simple, SameRegs, Counting;
    Parts(s, t, e, u);
    if t.pc.Do? { DoPhases(s, t, e, u); } else { BasePhases(s, t, e, u); }
  }

  predicate NamesEntry(d: Pc) { Gripping(d) && !d.UTest? && !d.CFail? }

  predicate SameAll(t: Thread, u: Thread) { SameRegs(t, u) && SameWork(t, u) }

  /** How a thread comes to rely on entries. */
  predicate WorkTurn(s: State, t: Thread, e: Effect, u: Thread) {
    var d, v := Dest(t.pc), Dest(u.pc);
    && (NamesEntry(v) ==> (NamesEntry(d) && u.name == t.name)
                          || (t.pc == CName && u.b == t.b && Ent(t.b, u.name) !in s.ents))
    && (v == UTest ==> (d == UTest && SameAll(t, u) && (e.Acquire? || e.Update?))
                       || (t.pc == UName && e.Get? && u.name.Plain? && Shows(s, t.b, u.name, e.i) && u.a == e.i
                           && u.b == t.b))
    && (v == CPlus ==> t.pc == CEnt && t.kind == Dir && SameAll(t, u) && e == AddEnt(Ent(t.b, t.name), t.a)
                       && e.e !in s.ents)
    && (v == CDot || v == CDotDot ==> u.kind == Dir || (d == v && u.kind == t.kind) || (d == CDot && u.kind == t.kind))
    && (v == CDotDot ==> t.pc == CDot && SameAll(t, u) && e == AddEnt(Ent(t.a, Dot), t.a) && e.e !in s.ents)
    && (v == CEnt && u.kind == Dir ==>
          (d == CEnt && SameAll(t, u) && (e.Acquire? || e.Update?))
          || (t.pc == CDotDot && SameAll(t, u) && e == AddEnt(Ent(t.a, DotDot), t.b) && e.e !in s.ents))
  }

  lemma DoWorks(s: State, t: Thread, e: Effect, u: Thread)
    requires t.pc.Do? && DoTurn(s, t, e, u) && Handled(t, e, u) && Leads(t.pc) && u.pc != Panicked
    ensures WorkTurn(s, t, e, u)
  {
    hide InoAt, Dest, DoTurn, Handled, Plan, Shows;
    DoDest(s, t, e, u);
    DoRegs(s, t, e, u);
    DoSame(s, t, e, u);
    if Gripping(Dest(t.pc)) { DoClose(s, t, e, u); }
  }

  /** With its last act on ip, a thread that relies on entries only takes a lock or stores. */
  lemma DoClose(s: State, t: Thread, e: Effect, u: Thread)
    requires DoTurn(s, t, e, u) && NearBy(t.pc)
    ensures e.Acquire? || e.Update?
  {
    hide InoAt;
  }

  lemma BaseWorks(s: State, t: Thread, e: Effect, u: Thread)
    requires Turn(s, t, e, u) && Handled(t, e, u) && !t.pc.Do?
    ensures WorkTurn(s, t, e, u)
  {
    hide InoAt, Dest, Shows, Sources, Held, Locked, Owns, UnlockPut;
    DestAt(t.pc);
    if !u.pc.Do? { DestAt(u.pc); }
    DestFound(t.pc);
  }

  lemma Works(s: State, t: Thread, e: Effect, u: Thread)
    requires Moves(s, t, e, u)
    ensures WorkTurn(s, t, e, u)
  {
    hide Moves, WorkTurn, Turn, DoTurn, Handled, Plan, Files, Enabled, Leads, BitsAfter, Simple, SameRegs, Counting;
    Parts(s, t, e, u);
    if t.pc.Do? { DoWorks(s, t, e, u); } else { BaseWorks(s, t, e, u); }
  }

  /** A thread holds from now on what the place it is heading for expects. */
  lemma {:induction false} HeldOnWay(pc: Pc, b: Bits)
    requires Plan(pc, b)
    ensures (Expect(Dest(pc)).ha ==> b.ha) && (Expect(Dest(pc)).hb ==> b.hb) && (Expect(Dest(pc)).hc ==> b.hc)
  {
    hide Expect, Plan;
    PlanIs(pc, b);
    if pc.Do? { HeldOnWay(pc.then', Leaves(pc.act, pc.r, b)); }
  }

  /** What is being put down is not needed further on. */
  lemma PutUnneeded(pc: Pc, b: Bits)
    requires Plan(pc, b) && pc.Do? && pc.act != Lock && pc.act != Unlock && pc.act != Store
    ensures !Held(Expect(Dest(pc)), pc.r)
  {
    hide Expect, Plan;
    PlanIs(pc, b);
    HeldOnWay(pc.then', Leaves(pc.act, pc.r, b));
  }

  /** References that a place further on implies. */
  lemma HeldFor(t: Thread)
    requires Planned(t)
    ensures InDir(Dest(t.pc)) ==> t.bits.hb
    ensures (Linking(Dest(t.pc)) || Dest(t.pc) == CPlus || Dest(t.pc) == CEnd
             || (Making(Dest(t.pc)) && Dest(t.pc) != CIget)) ==> t.bits.ha
  {
    hide Plan, Dest;
    HeldOnWay(t.pc, t.bits);
  }

  lemma NotPutting(t: Thread, r: R)
    requires Planned(t) && t.pc.Do? && t.pc.r == r && t.pc.act != Lock && t.pc.act != Unlock && t.pc.act != Store
    ensures InDir(Dest(t.pc)) ==> r != B
    ensures (Linking(Dest(t.pc)) || Dest(t.pc) == CPlus || Dest(t.pc) == CEnd
             || (Making(Dest(t.pc)) && Dest(t.pc) != CIget)) ==> r != A
  {
    hide Plan, Dest;
    PutUnneeded(t.pc, t.bits);
  }

  /** A thread that relies on entries has their directory locked. */
  lemma GripLocks(t: Thread)
    requires Planned(t) && Leads(t.pc)
    ensures Gripping(Dest(t.pc)) ==> t.bits.lb && t.bits.hb
    ensures Dest(t.pc) == CDot || Dest(t.pc) == CDotDot || Dest(t.pc) == CEnt || Dest(t.pc) == CPlus
            || Dest(t.pc) == CFail ==>
              !(t.pc.Do? && t.pc.act == Lock) ==> t.bits.la
    ensures t.pc == UTest || t.pc == CPlus || t.pc == CEnt || t.pc == CDot || t.pc == CDotDot || t.pc == CInit ==>
              t.bits == LOCKED_AB
  {
    hide Plan, Dest;
    PlanIs(t.pc, t.bits);
    if t.pc.Do? {
      DestDo(t.pc.act, t.pc.r, t.pc.then');
      if Gripping(Dest(t.pc)) {
        DestAt(t.pc.then');
        PlanIs(t.pc.then', Leaves(t.pc.act, t.pc.r, t.bits));
      }
    } else {
      DestAt(t.pc);
    }
  }

  /** Who counts a link has the inode in hand. */
  lemma CountHeld(s: State, t: Thread, e: Effect, u: Thread)
    requires Moves(s, t, e, u) && (e.Inc? || e.SetOne? || e.AddEnt? || e.DelEnt? || e.IncDir?)
    ensures !t.pc.Do? && t.bits.ha && (e.DelEnt? || e.IncDir? ==> t.bits.hb)
  {
    hide Moves, Handled, Files, Enabled, BitsAfter, Plan, Leads, GetTurn, QuietTurn, InoAt, UnlockPut, Dest;
    Parts(s, t, e, u);
    if t.pc.Do? { DoRegs(s, t, e, u); }
    PlanIs(t.pc, t.bits);
  }
}
