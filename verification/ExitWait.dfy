/** fork, exit, wait, reparent and freeproc of kernel/proc.c as a machine of any number of process
    slots, in every interleaving. Each step is one access to what wait_lock or a p->lock guards, or
    the taking or releasing of such a lock; a stretch of code that only takes one p->lock, looks
    and drops it again (a visit of wakeup, of allocproc to a used slot, killed, yield) is one step.
    That a process runs on one CPU at a time is shown in SleepLocks. */
module ExitWait {
  import opened Options

  datatype Spin = W | P(proc: nat)

  datatype PState = UNUSED | USED | RUNNABLE | RUNNING | SLEEPING | ZOMBIE

  datatype Chan = NoChan | OnProc(p: nat) | Elsewhere

  /** Where the kernel thread of a process is. The last five are places off the CPU. */
  datatype Pc =
    | Out | Panicked
    | ForkScan(k: nat) | ForkFill(k: nat) | ForkFail(k: nat)
    | ForkLock(k: nat) | ForkParent(k: nat) | ForkUnlock(k: nat) | ForkRun(k: nat)
    | ExitLock | ExitScan(k: nat) | ExitGive(k: nat) | Waking(t: nat, j: nat, then': Option<nat>)
    | ExitSelf | ExitZombie | ExitUnlock | ExitSched
    | WaitLock | WaitScan(k: nat, kids: bool) | WaitTake(k: nat) | WaitTest(k: nat) | WaitNext(k: nat)
    | WaitReap(k: nat) | WaitDrop(k: nat) | WaitOut | WaitEnd(kids: bool)
    | SleepLock | SleepUnlock | SleepChan | SleepState | SleepSched | Woken | WokenUnlock | BornUnlock
    | Asleep | Napping | Yielded(back: Pc) | Born | Dead

  datatype Proc = Proc(state: PState, chan: Chan, parent: Option<nat>, pid: nat, pc: Pc)

  /** Who has a spinlock: the thread of a process, or the scheduler a thread has switched to. */
  datatype Holder = Thread(p: nat) | Scheduler

  datatype Reap = Reap(child: nat, reaper: nat)

  /** `exited` and `reaped` record, by pid, every exit and every child returned by wait. */
  datatype State = State(procs: seq<Proc>, owner: map<Spin, Holder>, init: nat, nextpid: nat, exited: seq<nat>,
                         reaped: seq<Reap>)

  datatype Choice = Fork | Exit | Wait | Fail | Continue

  datatype Effect =
    | Quiet | Take(x: Spin) | Give(x: Spin)
    | Claim(k: nat) | Free(k: nat) | PutParent(k: nat, q: nat) | Start(k: nat)
    | Wake(j: nat, t: nat) | Peek(j: nat)
    | PutChan(chan: Chan) | Doze | Die | Collect(k: nat) | Leave

  datatype Op = Op(effect: Effect, next: Pc)

  /** What a thread sees: the table size, initproc, its parent, and the slot it looks at. */
  datatype View = View(n: nat, init: nat, myParent: Option<nat>, slotParent: Option<nat>, slotState: PState)

  predicate Off(pc: Pc) { pc.Asleep? || pc.Napping? || pc.Yielded? || pc.Born? || pc.Dead? }

  /** No spinlock is held here, so a timer may make the thread yield. */
  predicate Interruptible(pc: Pc) {
    pc.Out? || pc.ForkScan? || pc.ForkLock? || pc.ForkRun? || pc.ExitLock? || pc.WaitLock?
  }

  /** The slot a thread at pc has in hand, if any. */
  function Slot(pc: Pc): (k: Option<nat>) {
    match pc
    case ForkScan(k) => Some(k)
    case ForkFill(k) => Some(k)
    case ForkFail(k) => Some(k)
    case ForkLock(k) => Some(k)
    case ForkParent(k) => Some(k)
    case ForkUnlock(k) => Some(k)
    case ForkRun(k) => Some(k)
    case ExitScan(k) => Some(k)
    case ExitGive(k) => Some(k)
    case WaitScan(k, _) => Some(k)
    case WaitTake(k) => Some(k)
    case WaitTest(k) => Some(k)
    case WaitNext(k) => Some(k)
    case WaitReap(k) => Some(k)
    case WaitDrop(k) => Some(k)
    case _ => None
  }

  function Sees(s: State, p: nat): (v: View)
    requires p < |s.procs|
  {
    var k := Slot(s.procs[p].pc);
    var seen := k.Some? && k.value < |s.procs|;
    View(|s.procs|, s.init, s.procs[p].parent,
         if seen then s.procs[k.value].parent else None, if seen then s.procs[k.value].state else UNUSED)
  }

  /** The program of a thread: its next access from pc. */
  function Code(pc: Pc, p: nat, v: View, ch: Choice): (op: Option<Op>) {
    match pc
    case Out =>
      (match ch
       case Fork => Some(Op(Quiet, ForkScan(0)))
       case Exit => Some(Op(Quiet, if p == v.init then Panicked else ExitLock))
       case Wait => Some(Op(Quiet, WaitLock))
       case _ => None)
    // fork: allocproc, then the parent under wait_lock, then RUNNABLE
    case ForkScan(k) => if k >= v.n then Some(Op(Quiet, Out))
                        else if v.slotState == UNUSED then Some(Op(Claim(k), ForkFill(k)))
                        else Some(Op(Peek(k), ForkScan(k + 1)))
    case ForkFill(k) => if ch == Fail then Some(Op(Free(k), ForkFail(k))) else Some(Op(Give(P(k)), ForkLock(k)))
    case ForkFail(k) => Some(Op(Give(P(k)), Out))
    case ForkLock(k) => Some(Op(Take(W), ForkParent(k)))
    case ForkParent(k) => Some(Op(PutParent(k, p), ForkUnlock(k)))
    case ForkUnlock(k) => Some(Op(Give(W), ForkRun(k)))
    case ForkRun(k) => Some(Op(Start(k), Out))
    // exit: reparent, wake the parent, become a zombie
    case ExitLock => Some(Op(Take(W), ExitScan(0)))
    case ExitScan(k) => if k >= v.n && v.myParent.Some? then Some(Op(Quiet, Waking(v.myParent.value, 0, None)))
                        else if k >= v.n then Some(Op(Quiet, ExitSelf))
                        else if v.slotParent == Some(p) then Some(Op(Quiet, ExitGive(k)))
                        else Some(Op(Quiet, ExitScan(k + 1)))
    case ExitGive(k) => Some(Op(PutParent(k, v.init), Waking(v.init, 0, Some(k + 1))))
    case Waking(t, j, th) => if j >= v.n then Some(Op(Quiet, if th.Some? then ExitScan(th.value) else ExitSelf))
                             else if j == p then Some(Op(Quiet, Waking(t, j + 1, th)))
                             else Some(Op(Wake(j, t), Waking(t, j + 1, th)))
    case ExitSelf => Some(Op(Take(P(p)), ExitZombie))
    case ExitZombie => Some(Op(Die, ExitUnlock))
    case ExitUnlock => Some(Op(Give(W), ExitSched))
    case ExitSched => Some(Op(Leave, Dead))
    // wait
    case WaitLock => Some(Op(Take(W), WaitScan(0, false)))
    case WaitScan(k, kids) => if k >= v.n then Some(Op(Quiet, WaitEnd(kids)))
                              else if v.slotParent == Some(p) then Some(Op(Quiet, WaitTake(k)))
                              else Some(Op(Quiet, WaitScan(k + 1, kids)))
    case WaitTake(k) => Some(Op(Take(P(k)), WaitTest(k)))
    case WaitTest(k) => if v.slotState != ZOMBIE then Some(Op(Quiet, WaitNext(k)))
                        else if ch == Fail then Some(Op(Quiet, WaitDrop(k))) else Some(Op(Quiet, WaitReap(k)))
    case WaitNext(k) => Some(Op(Give(P(k)), WaitScan(k + 1, true)))
    case WaitReap(k) => Some(Op(Collect(k), WaitDrop(k)))
    case WaitDrop(k) => Some(Op(Give(P(k)), WaitOut))
    case WaitOut => Some(Op(Give(W), Out))
    case WaitEnd(kids) => if !kids then Some(Op(Quiet, WaitOut))
                          else Some(Op(Peek(p), if ch == Fail then WaitOut else SleepLock))
    // sleep(p, &wait_lock)
    case SleepLock => Some(Op(Take(P(p)), SleepUnlock))
    case SleepUnlock => Some(Op(Give(W), SleepChan))
    case SleepChan => Some(Op(PutChan(OnProc(p)), SleepState))
    case SleepState => Some(Op(Doze, SleepSched))
    case SleepSched => Some(Op(Leave, Asleep))
    case Woken => Some(Op(PutChan(NoChan), WokenUnlock))
    case WokenUnlock => Some(Op(Give(P(p)), WaitLock))
    case BornUnlock => Some(Op(Give(P(p)), Out))
    case _ => None
  }

  /** Locks the effect needs to find free, and slots in the table. */
  predicate Ready(s: State, e: Effect) {
    match e
    case Take(x) => x !in s.owner
    case Claim(k) => k < |s.procs| && P(k) !in s.owner
    case Peek(j) => P(j) !in s.owner
    case Wake(j, _) => j < |s.procs| && P(j) !in s.owner
    case Start(k) => k < |s.procs| && P(k) !in s.owner
    case Free(k) => k < |s.procs|
    case PutParent(k, _) => k < |s.procs|
    case Collect(k) => k < |s.procs|
    case _ => true
  }

  function Put(s: State, p: nat, q: Proc): (t: State)
    requires p < |s.procs|
  {
    s.(procs := s.procs[p := q])
  }

  /** freeproc. */
  function Freed(q: Proc): (r: Proc) { Proc(UNUSED, NoChan, None, 0, q.pc) }

  function Apply(s: State, p: nat, e: Effect): (t: State)
    requires p < |s.procs| && Ready(s, e)
    ensures |t.procs| == |s.procs|
  {
    match e
    case Quiet => s
    case Peek(_) => s
    case Take(x) => s.(owner := s.owner[x := Thread(p)])
    case Give(x) => s.(owner := s.owner - {x})
    case Claim(k) =>
      var q := s.procs[k].(state := USED, pid := s.nextpid, pc := Born);
      Put(s, k, q).(owner := s.owner[P(k) := Thread(p)], nextpid := s.nextpid + 1)
    case Free(k) => Put(s, k, Freed(s.procs[k]))
    case PutParent(k, q) => Put(s, k, s.procs[k].(parent := Some(q)))
    case Start(k) => Put(s, k, s.procs[k].(state := RUNNABLE))
    case Wake(j, t) => if s.procs[j].state == SLEEPING && s.procs[j].chan == OnProc(t)
                       then Put(s, j, s.procs[j].(state := RUNNABLE)) else s
    case PutChan(ch) => Put(s, p, s.procs[p].(chan := ch))
    case Doze => Put(s, p, s.procs[p].(state := SLEEPING))
    case Die => Put(s, p, s.procs[p].(state := ZOMBIE)).(exited := s.exited + [s.procs[p].pid])
    case Collect(k) => Put(s, k, Freed(s.procs[k])).(reaped := s.reaped + [Reap(s.procs[k].pid, s.procs[p].pid)])
    case Leave => s.(owner := s.owner[P(p) := Scheduler])
  }

  function Resumed(pc: Pc): (r: Pc) {
    match pc
    case Asleep => Woken
    case Napping => Out
    case Yielded(back) => back
    case Born => BornUnlock
    case _ => pc
  }

  /** Steps: a thread's, the scheduler's release of a p->lock, its switch to a process; a yield; a
      sleep for some other reason; and a kill or other wakeup. */
  datatype Step = Run(p: nat, ch: Choice) | Drop(p: nat) | Resume(p: nat) | Yield(p: nat) | Nap(p: nat) | Poke(p: nat)

  /** What becomes of the process itself in the last four. A process switched to in sleep or in
      forkret has its lock to drop; one that yielded or slept elsewhere drops it in the same step. */
  function Moved(q: Proc, st: Step): (r: Option<Proc>) {
    match st
    case Resume(_) =>
      if q.state != RUNNABLE then None
      else if q.pc.Asleep? || q.pc.Born? then Some(q.(state := RUNNING, pc := Resumed(q.pc)))
      else Some(q.(state := RUNNING, pc := Resumed(q.pc), chan := NoChan))
    case Yield(_) => if Interruptible(q.pc) then Some(q.(state := RUNNABLE, pc := Yielded(q.pc))) else None
    case Nap(_) => if q.pc.Out? then Some(q.(state := SLEEPING, chan := Elsewhere, pc := Napping)) else None
    case Poke(_) => if q.state == SLEEPING then Some(q.(state := RUNNABLE)) else None
    case _ => None
  }

  function Next(s: State, st: Step): (t: Option<State>) {
    if st.p >= |s.procs| then None else
    var p := st.p;
    var q := s.procs[p];
    match st
    case Run(_, ch) =>
      (if Off(q.pc) then None else
       match Code(q.pc, p, Sees(s, p), ch)
       case None => None
       case Some(op) => if Ready(s, op.effect) then Some(Apply(Put(s, p, q.(pc := op.next)), p, op.effect)) else None)
    case Drop(_) => if P(p) in s.owner && s.owner[P(p)] == Scheduler then Some(s.(owner := s.owner - {P(p)})) else None
    case _ =>
      if P(p) in s.owner || Moved(q, st) == None then None
      else Some(Put(s, p, Moved(q, st).value).(
             owner := if st.Resume? && (q.pc.Asleep? || q.pc.Born?) then s.owner[P(p) := Thread(p)] else s.owner))
  }

  // Invariants.

  /** The spinlocks thread p holds at pc. */
  function Held(pc: Pc, p: nat): (r: set<Spin>) {
    match pc
    case ForkFill(k) => {P(k)}
    case ForkFail(k) => {P(k)}
    case ForkParent(_) => {W}
    case ForkUnlock(_) => {W}
    case ExitScan(_) => {W}
    case ExitGive(_) => {W}
    case Waking(_, _, _) => {W}
    case ExitSelf => {W}
    case ExitZombie => {W, P(p)}
    case ExitUnlock => {W, P(p)}
    case ExitSched => {P(p)}
    case WaitScan(_, _) => {W}
    case WaitTake(_) => {W}
    case WaitTest(k) => {W, P(k)}
    case WaitNext(k) => {W, P(k)}
    case WaitReap(k) => {W, P(k)}
    case WaitDrop(k) => {W, P(k)}
    case WaitOut => {W}
    case WaitEnd(_) => {W}
    case SleepLock => {W}
    case SleepUnlock => {W, P(p)}
    case SleepChan => {P(p)}
    case SleepState => {P(p)}
    case SleepSched => {P(p)}
    case Woken => {P(p)}
    case WokenUnlock => {P(p)}
    case BornUnlock => {P(p)}
    case _ => {}
  }

  ghost predicate SpinsOk(s: State) {
    && (forall x {:trigger x in s.owner} :: x in s.owner ==>
          match s.owner[x]
          case Thread(p) => p < |s.procs| && x in Held(s.procs[p].pc, p)
          case Scheduler => x.P? && x.proc < |s.procs| && Off(s.procs[x.proc].pc))
    && (forall p: nat, x {:trigger x in Held(s.procs[p].pc, p)} :: p < |s.procs| && x in Held(s.procs[p].pc, p) ==>
          x in s.owner && s.owner[x] == Thread(p))
  }

  function Base(pc: Pc): (r: Pc) { if pc.Yielded? then pc.back else pc }

  predicate Exiting(pc: Pc) {
    pc.ExitLock? || pc.ExitScan? || pc.ExitGive? || pc.Waking? || pc.ExitSelf? || pc.ExitZombie? || pc.ExitUnlock?
    || pc.ExitSched?
  }

  /** Slots named at a place exist, only places without a spinlock are interrupted, init never exits. */
  predicate PlaceOk(pc: Pc, p: nat, n: nat, init: nat) {
    && (pc.Yielded? ==> Interruptible(pc.back))
    && (Slot(Base(pc)).Some? && !pc.ExitScan? && !pc.WaitScan? && !Base(pc).ForkScan? ==> Slot(Base(pc)).value < n)
    && (Exiting(Base(pc)) ==> p != init)
  }

  /** A process's state and chan fit its place. */
  predicate StateOk(q: Proc, p: nat) {
    match q.pc
    case Dead => q.state == ZOMBIE || q.state == UNUSED
    case Born => q.state == UNUSED || q.state == USED || q.state == RUNNABLE
    case Asleep => (q.state == SLEEPING || q.state == RUNNABLE) && q.chan == OnProc(p)
    case Napping => (q.state == SLEEPING || q.state == RUNNABLE) && q.chan == Elsewhere
    case Yielded(_) => q.state == RUNNABLE
    case SleepState => q.state == RUNNING && q.chan == OnProc(p)
    case SleepSched => q.state == SLEEPING && q.chan == OnProc(p)
    case ExitUnlock => q.state == ZOMBIE
    case ExitSched => q.state == ZOMBIE
    case _ => q.state == RUNNING
  }

  predicate ProcOk(q: Proc, p: nat, n: nat, init: nat) { PlaceOk(q.pc, p, n, init) && StateOk(q, p) }

  ghost predicate ProcsOk(s: State) {
    forall p: nat :: p < |s.procs| ==> ProcOk(s.procs[p], p, |s.procs|, s.init)
  }

  predicate Live(st: PState) { st == RUNNABLE || st == RUNNING || st == SLEEPING }

  /** The slot a thread in fork is filling. */
  function Forking(pc: Pc): (k: Option<nat>) {
    match Base(pc)
    case ForkFill(k) => Some(k)
    case ForkLock(k) => Some(k)
    case ForkParent(k) => Some(k)
    case ForkUnlock(k) => Some(k)
    case ForkRun(k) => Some(k)
    case _ => None
  }

  /** Slot k is being filled by fork in p. */
  predicate ForkAt(q: Proc, k: nat, pc: Pc, p: nat) {
    && k != p && q.state == USED && q.pc == Born
    && q.parent == if Base(pc).ForkUnlock? || Base(pc).ForkRun? then Some(p) else None
  }

  ghost predicate ForksOk(s: State) {
    && (forall p: nat {:trigger Forking(s.procs[p].pc)} :: p < |s.procs| && Forking(s.procs[p].pc).Some? ==>
          var k := Forking(s.procs[p].pc).value; k < |s.procs| && ForkAt(s.procs[k], k, s.procs[p].pc, p))
    && (forall p: nat, q: nat {:trigger Forking(s.procs[p].pc), Forking(s.procs[q].pc)} ::
          p < |s.procs| && q < |s.procs| && Forking(s.procs[p].pc).Some? ==>
            Forking(s.procs[p].pc) == Forking(s.procs[q].pc) ==> p == q)
  }

  ghost predicate ParentAt(s: State, k: nat)
    requires k < |s.procs|
  {
    var q := s.procs[k];
    && (q.parent.Some? ==> q.parent.value < |s.procs| && q.parent.value != k && Live(s.procs[q.parent.value].state))
    && (q.state == UNUSED ==> q.parent == None)
    && (k != s.init && (Live(q.state) || q.state == ZOMBIE) ==> q.parent.Some?)
    && (k == s.init ==> Live(q.state) && q.parent == None)
  }

  /** Every parent is a live process; init has none; every other process past fork has one. */
  ghost predicate ParentsOk(s: State) {
    s.init < |s.procs| && forall k: nat :: k < |s.procs| ==> ParentAt(s, k)
  }

  /** exit: the slots below this are known not to be children. */
  function Cleared(pc: Pc, n: nat): (k: nat) {
    match pc
    case ExitScan(k) => k
    case ExitGive(k) => k
    case Waking(_, _, th) => if th.Some? then th.value else n
    case ExitSelf => n
    case ExitZombie => n
    case WaitScan(k, kids) => if kids then 0 else k
    case WaitEnd(kids) => if kids then 0 else n
    case _ => 0
  }

  /** wait: the slots below this are known not to be zombie children. */
  function Scanned(pc: Pc, n: nat): (k: nat) {
    match pc
    case WaitScan(k, _) => k
    case WaitTake(k) => k
    case WaitTest(k) => k
    case WaitNext(k) => k + 1
    case WaitEnd(_) => n
    case SleepLock => n
    case SleepUnlock => n
    case _ => 0
  }

  predicate IsChild(q: Proc, p: nat) { q.parent == Some(p) }

  /** q has given up wait_lock in wait and will be, or is, asleep. */
  predicate Committed(q: Proc) {
    q.pc.SleepChan? || q.pc.SleepState? || q.pc.SleepSched? || (q.pc.Asleep? && q.state == SLEEPING)
  }

  /** The slot a thread has in hand is its child. */
  predicate HasChild(pc: Pc) { pc.ExitGive? || pc.WaitTake? || pc.WaitTest? || pc.WaitReap? || pc.WaitNext? }

  /** What p has seen of the table under wait_lock still holds. */
  ghost predicate SeenAt(s: State, p: nat)
    requires p < |s.procs|
  {
    var pc := s.procs[p].pc; var n := |s.procs|;
    && (forall j: nat :: j < n && j < Cleared(pc, n) ==> !IsChild(s.procs[j], p))
    && (forall j: nat :: j < n && j < Scanned(pc, n) && IsChild(s.procs[j], p) ==> s.procs[j].state != ZOMBIE)
    && (HasChild(pc) ==> pc.k < n && IsChild(s.procs[pc.k], p))
    && (pc.WaitReap? ==> pc.k < n && s.procs[pc.k].state == ZOMBIE)
    && (pc.Waking? ==> pc.t < n && if pc.then'.Some? then pc.t == s.init else IsChild(s.procs[p], pc.t))
    && (pc.Waking? && pc.j > pc.t ==> pc.t < n && !Committed(s.procs[pc.t]))
    && (pc.ExitSelf? || pc.ExitZombie? ==> s.procs[p].parent.Some? && s.procs[p].parent.value < n
                                           && !Committed(s.procs[s.procs[p].parent.value]))
  }

  ghost predicate SeensOk(s: State) { forall p: nat :: p < |s.procs| ==> SeenAt(s, p) }

  /** A thread that has just given init a child, and has yet to wake init. */
  predicate WillWakeInit(pc: Pc, init: nat) { pc.Waking? && pc.t == init && pc.then'.Some? && pc.j <= init }

  ghost predicate InitWakerComing(s: State) { exists w: nat :: w < |s.procs| && WillWakeInit(s.procs[w].pc, s.init) }

  /** A process asleep in wait has no zombie child, unless it is init and is about to be woken. */
  ghost predicate SleepersOk(s: State) {
    forall q: nat, k: nat {:trigger IsChild(s.procs[k], q)} ::
      q < |s.procs| && k < |s.procs| && IsChild(s.procs[k], q) && Committed(s.procs[q])
      && s.procs[k].state == ZOMBIE ==>
        q == s.init && InitWakerComing(s)
  }

  /** Every pid in use or gone is its own, and has exited or not, been reaped or not, as its slot says. */
  ghost predicate PidAt(s: State, k: nat)
    requires k < |s.procs|
  {
    var q := s.procs[k];
    q.state != UNUSED ==>
      && q.pid < s.nextpid && (q.pid in s.exited <==> q.state == ZOMBIE)
      && (forall r :: r in s.reaped ==> r.child != q.pid)
      && (forall j: nat :: j < |s.procs| && j != k && s.procs[j].state != UNUSED ==> s.procs[j].pid != q.pid)
  }

  ghost predicate IsZombiePid(s: State, pid: nat) {
    exists k: nat :: k < |s.procs| && s.procs[k].state == ZOMBIE && s.procs[k].pid == pid
  }

  ghost predicate WasReaped(s: State, pid: nat) { exists r :: r in s.reaped && r.child == pid }

  ghost predicate PidsOk(s: State) {
    && (forall k: nat :: k < |s.procs| ==> PidAt(s, k))
    && (forall x :: x in s.exited ==> x < s.nextpid && (WasReaped(s, x) || IsZombiePid(s, x)))
    && (forall r :: r in s.reaped ==> r.child in s.exited)
    && (forall i: nat, j: nat :: i < j < |s.exited| ==> s.exited[i] != s.exited[j])
    && (forall i: nat, j: nat :: i < j < |s.reaped| ==> s.reaped[i].child != s.reaped[j].child)
  }

  ghost predicate Inv(s: State) {
    SpinsOk(s) && ProcsOk(s) && ForksOk(s) && ParentsOk(s) && SeensOk(s) && SleepersOk(s) && PidsOk(s)
  }

  /** The invariant, one process at a time. */
  lemma InvAt(s: State, p: nat)
    requires Inv(s) && p < |s.procs|
    ensures ProcOk(s.procs[p], p, |s.procs|, s.init) && SeenAt(s, p) && ParentAt(s, p)
  {
    hide SpinsOk, ForksOk, SleepersOk, PidsOk, ProcOk, SeenAt, ParentAt;
  }

  /** Two threads at places that hold spinlock x are one. */
  lemma OneInside(s: State, p: nat, q: nat, x: Spin)
    requires SpinsOk(s) && p < |s.procs| && q < |s.procs|
    requires x in Held(s.procs[p].pc, p) && x in Held(s.procs[q].pc, q)
    ensures p == q
  {
  }

  // The program of one thread, place by place.

  /** A thread takes a spinlock it has not, gives one it has, and leaves the CPU with p->lock alone. */
  predicate LockEffect(pc: Pc, p: nat, op: Op) {
    var before := Held(pc, p); var after := Held(op.next, p);
    && (Off(op.next) <==> op.effect.Leave?)
    && match op.effect
       case Take(x) => x !in before && after == before + {x}
       case Give(x) => x in before && after == before - {x}
       case Claim(k) => before == {} && after == {P(k)}
       case Leave => before == {P(p)} && after == {}
       case _ => after == before
  }

  predicate InFork(pc: Pc) {
    pc.Out? || pc.ForkScan? || pc.ForkFill? || pc.ForkFail? || pc.ForkLock? || pc.ForkParent? || pc.ForkUnlock?
    || pc.ForkRun?
  }

  lemma ForkLocks(pc: Pc, p: nat, v: View, ch: Choice)
    requires PlaceOk(pc, p, v.n, v.init) && InFork(pc) && Code(pc, p, v, ch).Some?
    ensures LockEffect(pc, p, Code(pc, p, v, ch).value)
  {
  }

  lemma ExitLocks(pc: Pc, p: nat, v: View, ch: Choice)
    requires PlaceOk(pc, p, v.n, v.init) && Exiting(pc) && Code(pc, p, v, ch).Some?
    ensures LockEffect(pc, p, Code(pc, p, v, ch).value)
  {
  }

  predicate InSleep(pc: Pc) {
    pc.SleepLock? || pc.SleepUnlock? || pc.SleepChan? || pc.SleepState? || pc.SleepSched? || pc.Woken?
    || pc.WokenUnlock? || pc.BornUnlock?
  }

  lemma LockTakes(pc: Pc, p: nat, op: Op, x: Spin)
    requires op.effect == Take(x) && !Off(op.next) && x !in Held(pc, p) && Held(op.next, p) == Held(pc, p) + {x}
    ensures LockEffect(pc, p, op)
  {
    hide Held;
  }

  lemma LockGives(pc: Pc, p: nat, op: Op, x: Spin)
    requires op.effect == Give(x) && !Off(op.next) && x in Held(pc, p) && Held(op.next, p) == Held(pc, p) - {x}
    ensures LockEffect(pc, p, op)
  {
    hide Held;
  }

  lemma LockKeeps(pc: Pc, p: nat, op: Op)
    requires !op.effect.Take? && !op.effect.Give? && !op.effect.Claim? && !op.effect.Leave? && !Off(op.next)
    requires Held(op.next, p) == Held(pc, p)
    ensures LockEffect(pc, p, op)
  {
    hide Held;
  }

  lemma LockLeaves(pc: Pc, p: nat, op: Op)
    requires op.effect.Leave? && Off(op.next) && Held(pc, p) == {P(p)} && Held(op.next, p) == {}
    ensures LockEffect(pc, p, op)
  {
    hide Held;
  }

  lemma SleepLocks(pc: Pc, p: nat, v: View, ch: Choice)
    requires InSleep(pc) && Code(pc, p, v, ch).Some?
    ensures LockEffect(pc, p, Code(pc, p, v, ch).value)
  {
    hide LockEffect;
    var op := Code(pc, p, v, ch).value;
    match pc
    case SleepLock => LockTakes(pc, p, op, P(p));
    case SleepUnlock => LockGives(pc, p, op, W);
    case SleepChan => LockKeeps(pc, p, op);
    case SleepState => LockKeeps(pc, p, op);
    case SleepSched => LockLeaves(pc, p, op);
    case Woken => LockKeeps(pc, p, op);
    case WokenUnlock => LockGives(pc, p, op, P(p));
    case BornUnlock => LockGives(pc, p, op, P(p));
  }

  lemma WaitLocks(pc: Pc, p: nat, v: View, ch: Choice)
    requires !Off(pc) && !InFork(pc) && !Exiting(pc) && !InSleep(pc) && Code(pc, p, v, ch).Some?
    ensures LockEffect(pc, p, Code(pc, p, v, ch).value)
  {
  }

  lemma LockTable(pc: Pc, p: nat, v: View, ch: Choice)
    requires PlaceOk(pc, p, v.n, v.init) && !Off(pc) && Code(pc, p, v, ch).Some?
    ensures LockEffect(pc, p, Code(pc, p, v, ch).value)
  {
    hide Code, LockEffect;
    if InFork(pc) { ForkLocks(pc, p, v, ch); }
    else if Exiting(pc) { ExitLocks(pc, p, v, ch); }
    else if InSleep(pc) { SleepLocks(pc, p, v, ch); }
    else { WaitLocks(pc, p, v, ch); }
  }

  lemma PlaceTable(pc: Pc, p: nat, v: View, ch: Choice)
    requires PlaceOk(pc, p, v.n, v.init) && !Off(pc) && Code(pc, p, v, ch).Some?
    ensures PlaceOk(Code(pc, p, v, ch).value.next, p, v.n, v.init)
  {
  }

  /** The thread's own process after its step. */
  function After(me: Proc, op: Op): (q: Proc) {
    var q := me.(pc := op.next);
    match op.effect
    case PutChan(ch) => q.(chan := ch)
    case Doze => q.(state := SLEEPING)
    case Die => q.(state := ZOMBIE)
    case _ => q
  }

  lemma StateTable(me: Proc, p: nat, v: View, ch: Choice)
    requires StateOk(me, p) && !Off(me.pc) && Code(me.pc, p, v, ch).Some?
    ensures StateOk(After(me, Code(me.pc, p, v, ch).value), p)
  {
  }

  /** What each write is, by where it is made. */
  lemma WriteTable(pc: Pc, p: nat, v: View, ch: Choice)
    requires PlaceOk(pc, p, v.n, v.init) && !Off(pc) && Code(pc, p, v, ch).Some?
    ensures var e := Code(pc, p, v, ch).value.effect; var next := Code(pc, p, v, ch).value.next;
            && (e.Claim? ==> pc == ForkScan(e.k) && e.k < v.n && v.slotState == UNUSED && next == ForkFill(e.k))
            && (e.Free? ==> pc == ForkFill(e.k) && e.k < v.n)
            && (e.PutParent? ==>
                  e.k < v.n && ((pc == ForkParent(e.k) && e.q == p) || (pc == ExitGive(e.k) && e.q == v.init)))
            && (e.Start? ==> pc == ForkRun(e.k) && e.k < v.n)
            && (e.Wake? ==> e.j != p && e.j < v.n && pc.Waking? && pc.t == e.t && pc.j == e.j)
            && (e.Collect? ==> pc == WaitReap(e.k) && e.k < v.n)
            && (e.Die? ==> pc.ExitZombie?) && (e.Doze? ==> pc.SleepState?)
               && (e.PutChan? ==> pc.SleepChan? || pc.Woken?)
  {
  }

  // A thread's step.

  ghost predicate Runs(s: State, p: nat, ch: Choice, op: Op, t: State) {
    && p < |s.procs| && !Off(s.procs[p].pc) && Code(s.procs[p].pc, p, Sees(s, p), ch) == Some(op) && Ready(s, op.effect)
    && t == Apply(Put(s, p, s.procs[p].(pc := op.next)), p, op.effect)
  }

  /** What effect e of thread p makes of slot j. */
  function Touched(q: Proc, j: nat, p: nat, e: Effect, newpid: nat): (r: Proc) {
    match e
    case Claim(k) => if j == k then q.(state := USED, pid := newpid, pc := Born) else q
    case Free(k) => if j == k then Freed(q) else q
    case PutParent(k, x) => if j == k then q.(parent := Some(x)) else q
    case Start(k) => if j == k then q.(state := RUNNABLE) else q
    case Wake(k, x) => if j == k && q.state == SLEEPING && q.chan == OnProc(x) then q.(state := RUNNABLE) else q
    case PutChan(ch) => if j == p then q.(chan := ch) else q
    case Doze => if j == p then q.(state := SLEEPING) else q
    case Die => if j == p then q.(state := ZOMBIE) else q
    case Collect(k) => if j == k then Freed(q) else q
    case _ => q
  }

  lemma ApplyTouches(s: State, p: nat, e: Effect, j: nat)
    requires p < |s.procs| && Ready(s, e) && j < |s.procs|
    ensures Apply(s, p, e).procs[j] == Touched(s.procs[j], j, p, e, s.nextpid)
  {
  }

  lemma ApplyElse(s: State, p: nat, e: Effect)
    requires p < |s.procs| && Ready(s, e)
    ensures var t := Apply(s, p, e);
            && t.init == s.init && t.owner == Owners(s.owner, p, e)
            && t.nextpid == (if e.Claim? then s.nextpid + 1 else s.nextpid)
            && t.exited == (if e.Die? then s.exited + [s.procs[p].pid] else s.exited)
            && (e.Collect? ==> e.k < |s.procs|)
            && t.reaped == (if e.Collect? then s.reaped + [Reap(s.procs[e.k].pid, s.procs[p].pid)] else s.reaped)
  {
  }

  lemma ReadyPut(s: State, p: nat, q: Proc, e: Effect)
    requires p < |s.procs|
    ensures Ready(Put(s, p, q), e) == Ready(s, e)
  {
  }

  lemma RunFrame(s: State, p: nat, ch: Choice, op: Op, t: State)
    requires Runs(s, p, ch, op, t)
    ensures |t.procs| == |s.procs| && t.init == s.init
    ensures forall j: nat :: j < |s.procs| ==>
              t.procs[j] == Touched(if j == p then s.procs[p].(pc := op.next)
                                    else s.procs[j], j, p, op.effect, s.nextpid)
    ensures t.owner == Owners(s.owner, p, op.effect)
    ensures t.nextpid == if op.effect.Claim? then s.nextpid + 1 else s.nextpid
    ensures t.exited == if op.effect.Die? then s.exited + [s.procs[p].pid] else s.exited
    ensures op.effect.Collect? ==> op.effect.k < |s.procs|
    ensures t.reaped == if op.effect.Collect? then s.reaped + [Reap(s.procs[op.effect.k].pid, s.procs[p].pid)]
                        else s.reaped
  {
    hide Code, Sees, Apply, Ready, Touched, Owners;
    var e, s' := op.effect, Put(s, p, s.procs[p].(pc := op.next));
    ReadyPut(s, p, s.procs[p].(pc := op.next), e);
    forall j: nat | j < |s.procs| ensures t.procs[j] == Touched(s'.procs[j], j, p, e, s.nextpid) {
      ApplyTouches(s', p, e, j);
    }
    ApplyElse(s', p, e);
  }

  /** The slot an effect of p writes is in the state p believes it to be in. */
  ghost predicate Allowed(s: State, p: nat, e: Effect)
    requires p < |s.procs|
  {
    match e
    case Claim(k) => k < |s.procs| && k != p && s.procs[k].state == UNUSED && Off(s.procs[k].pc) && P(k) !in s.owner
    case Free(k) => k < |s.procs| && k != p && s.procs[k].state == USED && s.procs[k].parent == None
                    && s.procs[k].pc == Born
    case PutParent(k, q) =>
      && k < |s.procs| && k != p
      && ((q == p && s.procs[k].state == USED && s.procs[k].parent == None)
          || (q == s.init && IsChild(s.procs[k], p) && p != s.init))
    case Start(k) => k < |s.procs| && k != p && s.procs[k].state == USED && IsChild(s.procs[k], p)
                     && s.procs[k].pc == Born
    case Wake(j, _) => j < |s.procs| && j != p && P(j) !in s.owner
    case Collect(k) => k < |s.procs| && k != p && s.procs[k].state == ZOMBIE && IsChild(s.procs[k], p)
                       && s.procs[k].pc == Dead
    case Die => p != s.init && s.procs[p].pc.ExitZombie? && forall j: nat :: j < |s.procs| ==> !IsChild(s.procs[j], p)
    case _ => true
  }

  /** What fork writes is the slot it claimed. */
  lemma ForkIsAllowed(s: State, p: nat, ch: Choice, op: Op)
    requires Inv(s) && p < |s.procs| && InFork(s.procs[p].pc) && Code(s.procs[p].pc, p, Sees(s, p), ch) == Some(op)
             && Ready(s, op.effect)
    ensures Allowed(s, p, op.effect)
  {
    var pc := s.procs[p].pc;
    WriteTable(pc, p, Sees(s, p), ch);
    hide Code, SleepersOk, PidsOk, ParentsOk, SeensOk, SpinsOk;
    assert ProcOk(s.procs[p], p, |s.procs|, s.init);
    if op.effect.Claim? { assert ProcOk(s.procs[op.effect.k], op.effect.k, |s.procs|, s.init); }
    else { assert Forking(pc).Some? ==> ForkAt(s.procs[Forking(pc).value], Forking(pc).value, pc, p); }
  }

  /** A zombie that still runs holds its own lock. */
  lemma ZombieHolds(s: State, k: nat)
    requires Inv(s) && k < |s.procs| && s.procs[k].state == ZOMBIE && !Off(s.procs[k].pc)
    ensures P(k) in Held(s.procs[k].pc, k)
  {
    hide SleepersOk, PidsOk, ForksOk, SpinsOk, ProcsOk, ParentsOk, SeensOk, SeenAt, ParentAt, PlaceOk;
    InvAt(s, k);
  }

  /** What exit and wait write is a child, and wait frees only a child that has left the CPU. */
  lemma WaitIsAllowed(s: State, p: nat, ch: Choice, op: Op)
    requires Inv(s) && p < |s.procs| && !Off(s.procs[p].pc) && !InFork(s.procs[p].pc)
    requires Code(s.procs[p].pc, p, Sees(s, p), ch) == Some(op) && Ready(s, op.effect)
    ensures Allowed(s, p, op.effect)
  {
    hide Code, SleepersOk, PidsOk, ForksOk, SpinsOk, ProcsOk, ParentsOk, SeensOk;
    var pc := s.procs[p].pc; var e := op.effect;
    InvAt(s, p);
    WriteTable(pc, p, Sees(s, p), ch);
    if e.PutParent? { InvAt(s, e.k); }
    if e.Collect? {
      InvAt(s, e.k);
      if !Off(s.procs[e.k].pc) { ZombieHolds(s, e.k); OneInside(s, p, e.k, P(e.k)); }
    }
  }

  lemma RunIsAllowed(s: State, p: nat, ch: Choice, op: Op)
    requires Inv(s) && p < |s.procs| && !Off(s.procs[p].pc) && Code(s.procs[p].pc, p, Sees(s, p), ch) == Some(op)
             && Ready(s, op.effect)
    ensures Allowed(s, p, op.effect)
  {
    hide Code, Inv, Allowed, Ready, Sees;
    if InFork(s.procs[p].pc) { ForkIsAllowed(s, p, ch, op); } else { WaitIsAllowed(s, p, ch, op); }
  }

  /** Slot j as the writer of e believes it to be, and no other thread in the way. */
  predicate AllowedOn(q: Proc, j: nat, e: Effect) {
    match e
    case Claim(k) => k == j ==> q.state == UNUSED && Off(q.pc)
    case Free(k) => k == j ==> q.state == USED && q.pc == Born
    case Start(k) => k == j ==> q.state == USED && q.pc == Born
    case Collect(k) => k == j ==> q.state == ZOMBIE && q.pc == Dead
    case Wake(k, _) => k == j ==> !q.pc.SleepSched?
    case _ => true
  }

  lemma TouchedProc(q: Proc, j: nat, p: nat, e: Effect, newpid: nat)
    requires StateOk(q, j) && AllowedOn(q, j, e) && j != p
    ensures StateOk(Touched(q, j, p, e, newpid), j)
    ensures Touched(q, j, p, e, newpid).pc == q.pc || Touched(q, j, p, e, newpid).pc == Born
  {
  }

  lemma RunAllowedOn(s: State, p: nat, ch: Choice, op: Op, j: nat)
    requires Inv(s) && j < |s.procs| && j != p
    requires p < |s.procs| && !Off(s.procs[p].pc) && Code(s.procs[p].pc, p, Sees(s, p), ch) == Some(op)
             && Ready(s, op.effect)
    ensures AllowedOn(s.procs[j], j, op.effect)
  {
    RunIsAllowed(s, p, ch, op);
    assert ProcOk(s.procs[j], j, |s.procs|, s.init);
    if s.procs[j].pc.SleepSched? { assert P(j) in Held(s.procs[j].pc, j); }
    hide Code, SleepersOk, PidsOk, SeensOk, ForksOk, ParentsOk, SpinsOk, ProcsOk;
  }

  /** Threads move only themselves; a claimed slot was held by nobody and still is not. */
  lemma TouchedHeld(q: Proc, j: nat, p: nat, e: Effect, newpid: nat)
    requires AllowedOn(q, j, e)
    ensures Held(Touched(q, j, p, e, newpid).pc, j) == Held(q.pc, j)
            && (Off(q.pc) <==> Off(Touched(q, j, p, e, newpid).pc))
  {
    assert Off(q.pc) ==> Held(q.pc, j) == {};
    hide Held;
    assert Held(Born, j) == {};
  }

  lemma RunHeld(s: State, p: nat, ch: Choice, op: Op, t: State, j: nat)
    requires Inv(s) && Runs(s, p, ch, op, t) && j < |s.procs| == |t.procs| && j != p
    ensures Held(t.procs[j].pc, j) == Held(s.procs[j].pc, j) && (Off(s.procs[j].pc) <==> Off(t.procs[j].pc))
  {
    RunFrame(s, p, ch, op, t);
    RunAllowedOn(s, p, ch, op, j);
    hide Code, Apply, Inv, Runs, Ready, Sees, Touched, Held, Off, AllowedOn;
    TouchedHeld(s.procs[j], j, p, op.effect, s.nextpid);
  }

  function Owners(owner: map<Spin, Holder>, p: nat, e: Effect): (r: map<Spin, Holder>) {
    match e
    case Take(x) => owner[x := Thread(p)]
    case Give(x) => owner - {x}
    case Claim(k) => owner[P(k) := Thread(p)]
    case Leave => owner[P(p) := Scheduler]
    case _ => owner
  }

  lemma SpinsStep(s: State, p: nat, op: Op, t: State)
    requires SpinsOk(s) && p < |s.procs| == |t.procs| && LockEffect(s.procs[p].pc, p, op) && Ready(s, op.effect)
             && t.procs[p].pc == op.next
    requires forall j: nat {:trigger t.procs[j]} :: j < |s.procs| && j != p ==>
               Held(t.procs[j].pc, j) == Held(s.procs[j].pc, j) && (Off(s.procs[j].pc) <==> Off(t.procs[j].pc))
    requires !Off(s.procs[p].pc) && t.owner == Owners(s.owner, p, op.effect)
    ensures SpinsOk(t)
  {
    hide Held, Off;
  }

  lemma RunSpins(s: State, p: nat, ch: Choice, op: Op, t: State)
    requires Inv(s) && Runs(s, p, ch, op, t)
    ensures SpinsOk(t)
  {
    RunFrame(s, p, ch, op, t);
    LockTable(s.procs[p].pc, p, Sees(s, p), ch);
    RunIsAllowed(s, p, ch, op);
    assert t.procs[p].pc == op.next;
    hide Code, Apply, Held, Allowed, SleepersOk, PidsOk, SeensOk, ForksOk, ParentsOk, ProcsOk, SpinsOk, Touched,
      LockEffect;
    forall j: nat | j < |s.procs| && j != p
      ensures Held(t.procs[j].pc, j) == Held(s.procs[j].pc, j) && (Off(s.procs[j].pc) <==> Off(t.procs[j].pc))
    {
      RunHeld(s, p, ch, op, t, j);
    }
    SpinsStep(s, p, op, t);
  }

  lemma RunProc(s: State, p: nat, ch: Choice, op: Op, t: State, j: nat)
    requires Inv(s) && Runs(s, p, ch, op, t) && j < |s.procs| == |t.procs| && j != p
    ensures ProcOk(t.procs[j], j, |t.procs|, t.init)
  {
    RunFrame(s, p, ch, op, t);
    assert ProcOk(s.procs[j], j, |s.procs|, s.init);
    RunAllowedOn(s, p, ch, op, j);
    TouchedProc(s.procs[j], j, p, op.effect, s.nextpid);
    hide Code, Apply, Inv, Runs, Touched, StateOk, AllowedOn;
  }

  lemma RunProcs(s: State, p: nat, ch: Choice, op: Op, t: State)
    requires Inv(s) && Runs(s, p, ch, op, t)
    ensures ProcsOk(t)
  {
    RunFrame(s, p, ch, op, t);
    RunIsAllowed(s, p, ch, op);
    assert ProcOk(s.procs[p], p, |s.procs|, s.init);
    PlaceTable(s.procs[p].pc, p, Sees(s, p), ch);
    StateTable(s.procs[p], p, Sees(s, p), ch);
    assert t.procs[p] == After(s.procs[p], op);
    hide Code, Apply, Touched, After, SleepersOk, PidsOk, SeensOk, ForksOk, ParentsOk, SpinsOk, Runs, PlaceOk, StateOk;
    forall j: nat | j < |s.procs| ensures ProcOk(t.procs[j], j, |t.procs|, t.init) {
      if j != p { RunProc(s, p, ch, op, t, j); }
    }
  }

  /** fork keeps one slot from claiming it to starting or freeing it, and sets its parent once. */
  lemma ForkTable(pc: Pc, p: nat, v: View, ch: Choice)
    requires PlaceOk(pc, p, v.n, v.init) && !Off(pc) && Code(pc, p, v, ch).Some?
             && Forking(Code(pc, p, v, ch).value.next).Some?
    ensures var op := Code(pc, p, v, ch).value; var e := op.effect; var k := Forking(op.next).value;
            || (e == Claim(k) && !op.next.ForkUnlock? && !op.next.ForkRun?)
            || (Forking(pc) == Some(k) && !e.Free? && !e.Start? && !e.Claim?
                && if e.PutParent? then e == PutParent(k, p) && op.next.ForkUnlock?
                   else (op.next.ForkUnlock? || op.next.ForkRun? <==> pc.ForkUnlock? || pc.ForkRun?))
  {
  }

  /** No effect of p writes slot k. */
  predicate Misses(e: Effect, k: nat) {
    && (e.Claim? || e.Free? || e.PutParent? || e.Start? || e.Collect? ==> e.k != k)
    && (e.Wake? ==> e.j != k)
  }

  /** p writes no slot that another thread is filling, unless it wakes it. */
  lemma ForkIsMissed(s: State, p: nat, ch: Choice, op: Op, q: nat, k: nat)
    requires Inv(s) && p < |s.procs| && !Off(s.procs[p].pc) && Code(s.procs[p].pc, p, Sees(s, p), ch) == Some(op)
             && Ready(s, op.effect)
    requires q < |s.procs| && q != p && Forking(s.procs[q].pc) == Some(k)
    ensures k < |s.procs| && ForkAt(s.procs[k], k, s.procs[q].pc, q) && k != p
            && (op.effect.Wake? || Misses(op.effect, k))
  {
    RunIsAllowed(s, p, ch, op);
    WriteTable(s.procs[p].pc, p, Sees(s, p), ch);
    hide Code, SpinsOk, SeensOk, SleepersOk, PidsOk, ParentsOk;
    assert ProcOk(s.procs[p], p, |s.procs|, s.init);
    assert Forking(s.procs[p].pc).Some? ==> Forking(s.procs[p].pc) != Forking(s.procs[q].pc);
  }

  /** A claimed slot does not fork. */
  lemma ForkPc(q: Proc, j: nat, p: nat, e: Effect, newpid: nat)
    requires AllowedOn(q, j, e) && Forking(Touched(q, j, p, e, newpid).pc).Some?
    ensures Touched(q, j, p, e, newpid).pc == q.pc
  {
  }

  lemma ForkUntouched(slot: Proc, k: nat, pc: Pc, q: nat, p: nat, e: Effect, newpid: nat)
    requires ForkAt(slot, k, pc, q) && k != p && (e.Wake? || Misses(e, k))
    ensures Touched(slot, k, p, e, newpid) == slot
  {
  }

  lemma RunForkOther(s: State, p: nat, ch: Choice, op: Op, t: State, q: nat)
    requires Inv(s) && Runs(s, p, ch, op, t) && q < |s.procs| == |t.procs| && q != p && Forking(t.procs[q].pc).Some?
    ensures var k := Forking(t.procs[q].pc).value; k < |t.procs| && ForkAt(t.procs[k], k, t.procs[q].pc, q)
    ensures t.procs[q].pc == s.procs[q].pc
  {
    hide Code, Inv, Apply, Sees, Ready, Forking, Runs, Off, AllowedOn, ForkAt;
    RunsFrom(s, p, ch, op, t);
    RunFrame(s, p, ch, op, t);
    RunAllowedOn(s, p, ch, op, q);
    ForkPc(s.procs[q], q, p, op.effect, s.nextpid);
    var k := Forking(s.procs[q].pc).value;
    ForkIsMissed(s, p, ch, op, q, k);
    ForkUntouched(s.procs[k], k, s.procs[q].pc, q, p, op.effect, s.nextpid);
  }

  lemma RunForkOwn(s: State, p: nat, ch: Choice, op: Op, t: State)
    requires Inv(s) && Runs(s, p, ch, op, t) && |s.procs| == |t.procs| && Forking(op.next).Some?
    ensures var k := Forking(op.next).value; k < |t.procs| && ForkAt(t.procs[k], k, op.next, p)
    ensures op.effect == Claim(Forking(op.next).value) || Forking(s.procs[p].pc) == Forking(op.next)
  {
    RunFrame(s, p, ch, op, t);
    RunIsAllowed(s, p, ch, op);
    ForkTable(s.procs[p].pc, p, Sees(s, p), ch);
    var k := Forking(op.next).value;
    hide SpinsOk, SeensOk, SleepersOk, PidsOk, Apply, Code;
    if op.effect == Claim(k) { assert ParentAt(s, k); }
    else { assert ForkAt(s.procs[k], k, s.procs[p].pc, p); }
    assert !op.next.Yielded?;
    hide ForksOk, ParentsOk, ProcsOk;
  }

  lemma AfterPc(me: Proc, op: Op)
    ensures After(me, op).pc == op.next
  {
  }

  /** The fork in q was there before the step, unless it claims its slot in this one. */
  lemma RunForkWas(s: State, p: nat, ch: Choice, op: Op, t: State, q: nat)
    requires Inv(s) && Runs(s, p, ch, op, t) && q < |s.procs| == |t.procs| && Forking(t.procs[q].pc).Some?
    ensures Forking(s.procs[q].pc) == Forking(t.procs[q].pc)
            || (q == p && op.effect == Claim(Forking(t.procs[q].pc).value))
  {
    hide Inv, Apply, Code, Sees, Ready, Runs, After, Forking, ForkAt, Off;
    RunSelf(s, p, ch, op, t);
    AfterPc(s.procs[p], op);
    if q != p { RunForkOther(s, p, ch, op, t, q); } else { RunForkOwn(s, p, ch, op, t); }
  }

  lemma ForksApart(s: State, q: nat, r: nat)
    requires Inv(s) && q < |s.procs| && r < |s.procs| && q != r
    ensures Forking(s.procs[q].pc).Some? ==> Forking(s.procs[q].pc) != Forking(s.procs[r].pc)
  {
    hide SpinsOk, SeensOk, SleepersOk, PidsOk, ParentsOk, ProcsOk, Forking, ForkAt;
  }

  lemma RunForksApart(s: State, p: nat, ch: Choice, op: Op, t: State, q: nat, r: nat)
    requires Inv(s) && Runs(s, p, ch, op, t) && q < |s.procs| == |t.procs| && r < |s.procs| && q != r
    ensures Forking(t.procs[q].pc).Some? ==> Forking(t.procs[q].pc) != Forking(t.procs[r].pc)
  {
    hide Inv, Apply, Code, Sees, Ready, Runs, Forking, Off;
    RunsFrom(s, p, ch, op, t);
    if Forking(t.procs[q].pc).Some? && Forking(t.procs[r].pc).Some? {
      RunForkWas(s, p, ch, op, t, q);
      RunForkWas(s, p, ch, op, t, r);
      ForksApart(s, q, r);
      if op.effect.Claim? {
        ClaimedByOne(s, p, ch, op, q);
        ClaimedByOne(s, p, ch, op, r);
      }
    }
  }

  lemma RunForks(s: State, p: nat, ch: Choice, op: Op, t: State)
    requires Inv(s) && Runs(s, p, ch, op, t)
    ensures ForksOk(t)
  {
    hide Inv, Apply, Code, Sees, Ready, Runs, After, Forking, ForkAt, Off;
    RunSelf(s, p, ch, op, t);
    assert After(s.procs[p], op).pc == op.next by { AfterPc(s.procs[p], op); }
    forall q: nat | q < |t.procs| && Forking(t.procs[q].pc).Some?
      ensures var k := Forking(t.procs[q].pc).value; k < |t.procs| && ForkAt(t.procs[k], k, t.procs[q].pc, q)
    {
      if q != p { RunForkOther(s, p, ch, op, t, q); } else { RunForkOwn(s, p, ch, op, t); }
    }
    forall q: nat, r: nat | q < |t.procs| && r < |t.procs| && Forking(t.procs[q].pc).Some?
                            && Forking(t.procs[q].pc) == Forking(t.procs[r].pc)
      ensures q == r
    {
      if q != r { RunForksApart(s, p, ch, op, t, q, r); }
    }
  }

  /** A claimed slot was UNUSED, so no fork had it. */
  lemma ClaimedByOne(s: State, p: nat, ch: Choice, op: Op, q: nat)
    requires Inv(s) && p < |s.procs| && !Off(s.procs[p].pc) && Code(s.procs[p].pc, p, Sees(s, p), ch) == Some(op)
             && Ready(s, op.effect)
    requires q < |s.procs| && op.effect.Claim?
    ensures Forking(s.procs[q].pc) != Some(op.effect.k)
  {
    RunIsAllowed(s, p, ch, op);
    hide Code, SpinsOk, SeensOk, SleepersOk, PidsOk, ParentsOk, ProcsOk;
  }

  /** A live process stays so, unless it exits. */
  lemma RunLive(s: State, p: nat, ch: Choice, op: Op, t: State, q: nat)
    requires Inv(s) && Runs(s, p, ch, op, t) && q < |s.procs| == |t.procs| && Live(s.procs[q].state)
             && !(op.effect.Die? && q == p)
    ensures Live(t.procs[q].state)
  {
    hide Code, Inv, Apply, Runs, Ready, Sees, Off;
    RunsFrom(s, p, ch, op, t);
    RunFrame(s, p, ch, op, t);
    RunIsAllowed(s, p, ch, op);
  }

  lemma NewParent(q: Proc, k: nat, p: nat, e: Effect, newpid: nat)
    ensures Touched(q, k, p, e, newpid).parent ==
            if e.PutParent? && e.k == k then Some(e.q)
            else if (e.Free? || e.Collect?) && e.k == k then None
            else q.parent
  {
  }

  /** A slot's parent after a step was live before it, and is not the one exiting. */
  lemma RunNewParent(s: State, p: nat, ch: Choice, op: Op, t: State, k: nat)
    requires Inv(s) && Runs(s, p, ch, op, t) && k < |s.procs| == |t.procs| && t.procs[k].parent.Some?
    ensures var q := t.procs[k].parent.value; q < |s.procs| && q != k && Live(s.procs[q].state)
                                              && !(op.effect.Die? && q == p)
  {
    RunFrame(s, p, ch, op, t);
    RunIsAllowed(s, p, ch, op);
    assert ParentAt(s, k) && ParentAt(s, s.init) && ProcOk(s.procs[p], p, |s.procs|, s.init);
    var e := op.effect;
    NewParent(if k == p then s.procs[p].(pc := op.next) else s.procs[k], k, p, e, s.nextpid);
    if e.PutParent? { WriteTable(s.procs[p].pc, p, Sees(s, p), ch); }
    if e.Die? { assert !IsChild(s.procs[k], p); }
    assert e.PutParent? && e.k == k ==> e.q != k && (e.q == p || e.q == s.init)
                                        && (s.procs[p].pc.ForkParent? || s.procs[p].pc.ExitGive?);
    hide Code, Inv, Apply, Sees, Ready, Touched, Runs, Allowed;
  }

  /** Slot k keeps, gains or loses a parent as its state says. */
  lemma TouchedParent(q: Proc, k: nat, p: nat, e: Effect, newpid: nat)
    requires q.state == UNUSED ==> q.parent == None
    requires e.Claim? && e.k == k ==> q.state == UNUSED
    requires e.PutParent? && e.k == k ==> q.state != UNUSED
    requires e.Start? && e.k == k ==> q.parent.Some?
    requires (e.Doze? || e.Die?) && k == p ==> Live(q.state)
    ensures var r := Touched(q, k, p, e, newpid);
            && (r.state == UNUSED ==> r.parent == None)
            && ((Live(q.state) || q.state == ZOMBIE ==> q.parent.Some?) ==>
                  (Live(r.state) || r.state == ZOMBIE ==> r.parent.Some?))
  {
  }

  lemma RunParentAt(s: State, p: nat, ch: Choice, op: Op, t: State, k: nat)
    requires Inv(s) && Runs(s, p, ch, op, t) && k < |s.procs| == |t.procs|
    ensures ParentAt(t, k)
  {
    RunFrame(s, p, ch, op, t);
    RunIsAllowed(s, p, ch, op);
    assert ParentAt(s, k) && ProcOk(s.procs[p], p, |s.procs|, s.init);
    WriteTable(s.procs[p].pc, p, Sees(s, p), ch);
    var q := if k == p then s.procs[p].(pc := op.next) else s.procs[k];
    TouchedParent(q, k, p, op.effect, s.nextpid);
    if k == s.init { RunLive(s, p, ch, op, t, k); }
    var r := t.procs[k].parent;
    if r.Some? {
      RunNewParent(s, p, ch, op, t, k);
      RunLive(s, p, ch, op, t, r.value);
    }
    assert k == s.init ==> t.procs[k].parent == None;
    hide Code, Inv, Apply, Sees, Ready, Touched, Allowed, PlaceOk, StateOk;
  }

  lemma RunParents(s: State, p: nat, ch: Choice, op: Op, t: State)
    requires Inv(s) && Runs(s, p, ch, op, t)
    ensures ParentsOk(t)
  {
    RunFrame(s, p, ch, op, t);
    forall k: nat | k < |t.procs| ensures ParentAt(t, k) { RunParentAt(s, p, ch, op, t, k); }
  }

  // What a thread has seen under wait_lock.

  lemma SeenNeedsW(s: State, p: nat)
    requires p < |s.procs| && W !in Held(s.procs[p].pc, p)
    ensures SeenAt(s, p)
  {
  }

  /** Same parent, as much a zombie as before, and not newly on the way to sleep in wait. */
  predicate Still(q: Proc, r: Proc) {
    r.parent == q.parent && (r.state == ZOMBIE <==> q.state == ZOMBIE) && (Committed(r) ==> Committed(q))
  }

  lemma TouchedStill(q: Proc, j: nat, p: nat, e: Effect, newpid: nat)
    requires j != p && AllowedOn(q, j, e) && !e.PutParent? && !e.Collect? && (e.Free? && e.k == j ==> q.parent == None)
    ensures Still(q, Touched(q, j, p, e, newpid))
  {
  }

  /** A thread becomes committed to sleep only by giving up wait_lock. */
  lemma OwnStill(me: Proc, p: nat, v: View, ch: Choice)
    requires ProcOk(me, p, v.n, v.init) && !Off(me.pc) && Code(me.pc, p, v, ch).Some? && W !in Held(me.pc, p)
    ensures Still(me, After(me, Code(me.pc, p, v, ch).value))
  {
  }

  /** Without wait_lock a thread changes no parent, makes or collects no zombie, and does not start
      to sleep in wait. */
  lemma RunStill(s: State, p: nat, ch: Choice, op: Op, t: State, j: nat)
    requires Inv(s) && Runs(s, p, ch, op, t) && j < |s.procs| == |t.procs| && W !in Held(s.procs[p].pc, p)
    ensures Still(s.procs[j], t.procs[j])
  {
    RunFrame(s, p, ch, op, t);
    RunIsAllowed(s, p, ch, op);
    WriteTable(s.procs[p].pc, p, Sees(s, p), ch);
    assert ProcOk(s.procs[p], p, |s.procs|, s.init);
    if j == p {
      OwnStill(s.procs[p], p, Sees(s, p), ch);
      assert t.procs[p] == After(s.procs[p], op);
    } else {
      RunAllowedOn(s, p, ch, op, j);
      hide Code, Inv, Apply, Sees, Ready, PlaceOk, Runs, Still, Touched, AllowedOn;
      TouchedStill(s.procs[j], j, p, op.effect, s.nextpid);
    }
  }

  /** What q has seen survives a step that leaves everything still. */
  lemma SeenKept(s: State, t: State, q: nat)
    requires q < |s.procs| == |t.procs| && t.init == s.init && SeenAt(s, q) && t.procs[q].pc == s.procs[q].pc
    requires forall j: nat {:trigger t.procs[j]} :: j < |s.procs| ==> Still(s.procs[j], t.procs[j])
    ensures SeenAt(t, q)
  {
    hide Cleared, Scanned, Committed;
  }

  lemma OffHoldsNothing(pc: Pc, p: nat)
    ensures Off(pc) ==> Held(pc, p) == {}
  {
  }

  lemma SeenOther(s: State, p: nat, ch: Choice, op: Op, t: State, q: nat)
    requires Inv(s) && Runs(s, p, ch, op, t) && q < |s.procs| == |t.procs| && q != p
    ensures SeenAt(t, q)
  {
    RunFrame(s, p, ch, op, t);
    RunHeld(s, p, ch, op, t, q);
    OffHoldsNothing(s.procs[q].pc, q);
    hide Code, Apply, Touched, Sees, Ready, SeenAt, Still, SpinsOk, ForksOk, SleepersOk, PidsOk, ProcsOk, ParentsOk,
      Held, Off, Runs;
    if W !in Held(s.procs[q].pc, q) {
      SeenNeedsW(t, q);
    } else {
      if W in Held(s.procs[p].pc, p) { OneInside(s, p, q, W); }
      PcKept(s, p, ch, op, t, q);
      forall j: nat | j < |s.procs| ensures Still(s.procs[j], t.procs[j]) { RunStill(s, p, ch, op, t, j); }
      SeenKept(s, t, q);
    }
  }

  lemma PcKept(s: State, p: nat, ch: Choice, op: Op, t: State, q: nat)
    requires Inv(s) && Runs(s, p, ch, op, t) && q < |s.procs| == |t.procs| && q != p && !Off(s.procs[q].pc)
    ensures t.procs[q].pc == s.procs[q].pc
  {
    RunFrame(s, p, ch, op, t);
    RunAllowedOn(s, p, ch, op, q);
    hide Code, Inv, Apply, Runs;
  }

  predicate Harmless(e: Effect) { e.Quiet? || e.Take? || e.Give? || e.Peek? }

  /** How far a scan has come, and what it saw of the slot it just passed. */
  lemma ScanTable(pc: Pc, p: nat, v: View, ch: Choice, j: nat)
    requires PlaceOk(pc, p, v.n, v.init) && !Off(pc) && Code(pc, p, v, ch).Some? && j < v.n
    ensures var op := Code(pc, p, v, ch).value; var e := op.effect;
            && (j < Cleared(op.next, v.n) ==>
                  (j < Cleared(pc, v.n) || (Slot(pc) == Some(j) && v.slotParent != Some(p))
                   || e == PutParent(j, v.init))
                  && (Harmless(e) || e.Wake? || (e.PutParent? && e.q == v.init != p)))
            && (j < Scanned(op.next, v.n) ==>
                  (j < Scanned(pc, v.n) || (Slot(pc) == Some(j) && (v.slotParent != Some(p) || v.slotState != ZOMBIE)))
                  && Harmless(e))
  {
  }

  lemma ChildTable(pc: Pc, p: nat, v: View, ch: Choice)
    requires PlaceOk(pc, p, v.n, v.init) && !Off(pc) && Code(pc, p, v, ch).Some?
    ensures var op := Code(pc, p, v, ch).value; var next := op.next;
            && (HasChild(next) ==> Harmless(op.effect) && Slot(pc) == Some(next.k) && next.k < v.n
                                   && (HasChild(pc) || v.slotParent == Some(p)))
            && (next.WaitReap? ==> v.slotState == ZOMBIE)
  {
  }

  lemma WakingTable(pc: Pc, p: nat, v: View, ch: Choice)
    requires PlaceOk(pc, p, v.n, v.init) && !Off(pc) && Code(pc, p, v, ch).Some?
    ensures var op := Code(pc, p, v, ch).value; var next := op.next;
            && (next.Waking? ==>
                  || (pc.Waking? && next == Waking(pc.t, pc.j + 1, pc.then')
                      && if pc.j == p then op.effect.Quiet? else op.effect == Wake(pc.j, pc.t))
                  || (pc.ExitGive? && next.t == v.init && next.then'.Some? && next.j == 0)
                  || (pc.ExitScan? && next.then' == None && v.myParent == Some(next.t) && next.j == 0
                      && op.effect.Quiet?))
            && (next.ExitSelf? ==> op.effect.Quiet?
                                   && ((pc.Waking? && pc.then' == None && pc.j >= v.n)
                                       || (pc.ExitScan? && v.myParent == None)))
            && (next.ExitZombie? ==> op.effect.Take? && pc.ExitSelf?)
  {
  }

  lemma PlaceOf(q: Proc, p: nat, n: nat, init: nat)
    requires ProcOk(q, p, n, init)
    ensures PlaceOk(q.pc, p, n, init)
  {
    hide PlaceOk;
  }

  lemma OwnScan(s: State, p: nat, ch: Choice, op: Op, t: State, j: nat)
    requires Inv(s) && Runs(s, p, ch, op, t) && j < |s.procs| == |t.procs|
    ensures j < Cleared(op.next, |t.procs|) ==> !IsChild(t.procs[j], p)
    ensures j < Scanned(op.next, |t.procs|) && IsChild(t.procs[j], p) ==> t.procs[j].state != ZOMBIE
  {
    hide Code, Inv, Apply, Runs, Ready, Cleared, Scanned, Committed, ProcOk, ParentAt, Off;
    RunsFrom(s, p, ch, op, t);
    RunFrame(s, p, ch, op, t);
    assert PlaceOk(s.procs[p].pc, p, |s.procs|, s.init) by { InvAt(s, p); PlaceOf(s.procs[p], p, |s.procs|, s.init); }
    hide PlaceOk;
    ScanTable(s.procs[p].pc, p, Sees(s, p), ch, j);
    InvAt(s, p);
  }

  lemma OwnChild(s: State, p: nat, ch: Choice, op: Op, t: State)
    requires Inv(s) && Runs(s, p, ch, op, t) && |s.procs| == |t.procs|
    ensures HasChild(op.next) ==> op.next.k < |t.procs| && IsChild(t.procs[op.next.k], p)
    ensures op.next.WaitReap? ==> op.next.k < |t.procs| && t.procs[op.next.k].state == ZOMBIE
  {
    RunFrame(s, p, ch, op, t);
    ChildTable(s.procs[p].pc, p, Sees(s, p), ch);
    assert SeenAt(s, p);
    hide Code, SpinsOk, ForksOk, SeensOk, SleepersOk, PidsOk, ProcsOk, ParentsOk, Apply, Runs, Ready, Cleared, Scanned,
      Committed;
  }

  lemma FreeLock(s: State, x: nat)
    requires Inv(s) && x < |s.procs| && P(x) !in s.owner
    ensures P(x) !in Held(s.procs[x].pc, x)
  {
    hide ProcsOk, ForksOk, ParentsOk, SeensOk, SleepersOk, PidsOk, Held;
  }

  lemma SleepHeld(pc: Pc, x: nat)
    ensures pc.SleepChan? || pc.SleepState? || pc.SleepSched? ==> P(x) in Held(pc, x)
  {
  }

  /** A visit of wakeup leaves the visited process awake. */
  lemma WokenUp(s: State, p: nat, ch: Choice, op: Op, t: State, x: nat)
    requires Inv(s) && Runs(s, p, ch, op, t) && x < |s.procs| == |t.procs| && op.effect == Wake(x, x)
    ensures !Committed(t.procs[x])
  {
    hide Code, Inv, Apply, Runs, Ready, Sees, SeenAt, ParentAt, PlaceOk, Off;
    RunsFrom(s, p, ch, op, t);
    RunFrame(s, p, ch, op, t);
    RunIsAllowed(s, p, ch, op);
    InvAt(s, x);
    FreeLock(s, x);
    SleepHeld(s.procs[x].pc, x);
    hide Held;
  }

  lemma OwnWaking(s: State, p: nat, ch: Choice, op: Op, t: State)
    requires Inv(s) && Runs(s, p, ch, op, t) && |s.procs| == |t.procs|
    ensures op.next.Waking? ==> op.next.t < |t.procs|
                                && if op.next.then'.Some? then op.next.t == t.init else IsChild(t.procs[p], op.next.t)
    ensures op.next.Waking? && op.next.j > op.next.t ==> op.next.t < |t.procs| && !Committed(t.procs[op.next.t])
    ensures op.next.ExitSelf? || op.next.ExitZombie? ==>
              t.procs[p].parent.Some? && t.procs[p].parent.value < |t.procs|
              && !Committed(t.procs[t.procs[p].parent.value])
  {
    RunFrame(s, p, ch, op, t);
    RunIsAllowed(s, p, ch, op);
    var pc := s.procs[p].pc;
    WakingTable(pc, p, Sees(s, p), ch);
    assert SeenAt(s, p) && ParentAt(s, p) && ProcOk(s.procs[p], p, |s.procs|, s.init);
    if op.next.Waking? && pc.Waking? && pc.j == pc.t && pc.j != p { WokenUp(s, p, ch, op, t, pc.j); }
    assert t.procs[p].pc == op.next;
    hide Code, SpinsOk, ForksOk, SeensOk, SleepersOk, PidsOk, ProcsOk, ParentsOk, Apply, Runs, Ready, Cleared, Scanned;
  }

  lemma RunSeens(s: State, p: nat, ch: Choice, op: Op, t: State)
    requires Inv(s) && Runs(s, p, ch, op, t)
    ensures SeensOk(t)
  {
    RunFrame(s, p, ch, op, t);
    assert t.procs[p].pc == op.next by { RunIsAllowed(s, p, ch, op); }
    hide Code, Apply, Inv, Runs, Touched, Cleared, Scanned, Committed, HasChild;
    forall q: nat | q < |t.procs| ensures SeenAt(t, q) {
      if q != p {
        SeenOther(s, p, ch, op, t, q);
      } else {
        forall j: nat | j < |t.procs|
          ensures j < Cleared(op.next, |t.procs|) ==> !IsChild(t.procs[j], p)
          ensures j < Scanned(op.next, |t.procs|) && IsChild(t.procs[j], p) ==> t.procs[j].state != ZOMBIE
        {
          OwnScan(s, p, ch, op, t, j);
        }
        OwnChild(s, p, ch, op, t);
        OwnWaking(s, p, ch, op, t);
      }
    }
  }

  // Sleep in wait.

  lemma TouchedZombie(q: Proc, j: nat, p: nat, e: Effect, newpid: nat)
    requires j != p && AllowedOn(q, j, e)
    ensures var r := Touched(q, j, p, e, newpid);
            && (Committed(r) ==> Committed(q))
            && (r.state == ZOMBIE ==> q.state == ZOMBIE
                                      && (r.parent == q.parent || (e.PutParent? && e.k == j && r.parent == Some(e.q))))
  {
  }

  lemma RunsFrom(s: State, p: nat, ch: Choice, op: Op, t: State)
    requires Runs(s, p, ch, op, t)
    ensures p < |s.procs| && !Off(s.procs[p].pc) && Code(s.procs[p].pc, p, Sees(s, p), ch) == Some(op)
            && Ready(s, op.effect)
  {
    hide Code, Apply, Off, Sees;
  }

  /** The thread's own process after its step, whole. */
  lemma RunSelf(s: State, p: nat, ch: Choice, op: Op, t: State)
    requires Inv(s) && Runs(s, p, ch, op, t)
    ensures p < |s.procs| == |t.procs| && t.procs[p] == After(s.procs[p], op)
  {
    hide Code, Inv, Apply, Ready, Runs, Sees, Off;
    RunsFrom(s, p, ch, op, t);
    RunFrame(s, p, ch, op, t);
    RunIsAllowed(s, p, ch, op);
  }

  /** A zombie after a harmless step, or a step of the thread on itself, was one before. */
  lemma RunTouches(s: State, p: nat, ch: Choice, op: Op, t: State, k: nat)
    requires Inv(s) && Runs(s, p, ch, op, t) && k < |s.procs| == |t.procs|
             && (Harmless(op.effect) || op.effect.PutChan? || op.effect.Doze? || op.effect.Leave?)
    ensures t.procs[k].parent == s.procs[k].parent && (t.procs[k].state == ZOMBIE ==> s.procs[k].state == ZOMBIE)
  {
    hide Code, Inv, Apply, Ready, Runs, Sees, Off;
    RunFrame(s, p, ch, op, t);
  }

  /** A thread that goes on to sleep has seen no zombie child. */
  lemma SleeperHasNone(s: State, p: nat, ch: Choice, op: Op, t: State, k: nat)
    requires Inv(s) && Runs(s, p, ch, op, t) && k < |s.procs| == |t.procs| && Committed(t.procs[p])
             && IsChild(t.procs[k], p) && t.procs[k].state == ZOMBIE
    ensures Committed(s.procs[p]) && IsChild(s.procs[k], p) && s.procs[k].state == ZOMBIE
  {
    hide Code, Inv, Apply, Ready, Cleared, Runs, PlaceOk, Off, Allowed, Touched;
    RunsFrom(s, p, ch, op, t);
    InvAt(s, p);
    RunSelf(s, p, ch, op, t);
    RunFrame(s, p, ch, op, t);
    CommitTable(s.procs[p].pc, p, Sees(s, p), ch);
    RunTouches(s, p, ch, op, t, k);
  }

  /** A thread that dies has left its parent awake. */
  lemma DyingLeavesAwake(s: State, p: nat, ch: Choice, op: Op, t: State, q: nat)
    requires Inv(s) && Runs(s, p, ch, op, t) && q < |s.procs| == |t.procs| && q != p
    requires IsChild(t.procs[p], q) && Committed(t.procs[q]) && t.procs[p].state == ZOMBIE
    ensures IsChild(s.procs[p], q) && Committed(s.procs[q]) && s.procs[p].state == ZOMBIE
  {
    RunFrame(s, p, ch, op, t);
    RunIsAllowed(s, p, ch, op);
    RunAllowedOn(s, p, ch, op, q);
    TouchedZombie(s.procs[q], q, p, op.effect, s.nextpid);
    assert SeenAt(s, p);
    assert t.procs[p] == After(s.procs[p], op);
    hide Code, Inv, Apply, Ready, Cleared, Scanned, Runs, Touched, Committed, AllowedOn;
  }

  /** Where a zombie child of a process asleep in wait can come from. */
  lemma RunZombieChild(s: State, p: nat, ch: Choice, op: Op, t: State, q: nat, k: nat)
    requires Inv(s) && Runs(s, p, ch, op, t) && q < |s.procs| == |t.procs| && k < |s.procs|
    requires IsChild(t.procs[k], q) && Committed(t.procs[q]) && t.procs[k].state == ZOMBIE
    ensures (IsChild(s.procs[k], q) && Committed(s.procs[q]) && s.procs[k].state == ZOMBIE)
            || (q == s.init && op.effect == PutParent(k, q))
  {
    if q == p {
      SleeperHasNone(s, p, ch, op, t, k);
    } else if k == p {
      DyingLeavesAwake(s, p, ch, op, t, q);
    } else {
      RunFrame(s, p, ch, op, t);
      RunIsAllowed(s, p, ch, op);
      RunAllowedOn(s, p, ch, op, q);
      RunAllowedOn(s, p, ch, op, k);
      TouchedZombie(s.procs[q], q, p, op.effect, s.nextpid);
      TouchedZombie(s.procs[k], k, p, op.effect, s.nextpid);
      hide Code, Inv, Apply, Ready, Runs, Touched, AllowedOn, Committed;
    }
  }

  /** A thread becomes committed to sleep only from where it is so, or by giving up wait_lock. */
  lemma CommitTable(pc: Pc, p: nat, v: View, ch: Choice)
    requires PlaceOk(pc, p, v.n, v.init) && !Off(pc) && Code(pc, p, v, ch).Some?
    ensures var op := Code(pc, p, v, ch).value;
            op.next.SleepChan? || op.next.SleepState? || op.next.SleepSched? || op.next.Asleep? ==>
              && (pc.SleepChan? || pc.SleepState? || pc.SleepSched? || (pc.SleepUnlock? && op.effect == Give(W)))
              && (op.effect.Give? || op.effect.PutChan? || op.effect.Doze? || op.effect.Leave?)
  {
  }

  lemma WakesOn(pc: Pc, p: nat, v: View, ch: Choice)
    requires PlaceOk(pc, p, v.n, v.init) && Code(pc, p, v, ch).Some? && WillWakeInit(pc, v.init) && v.init < v.n
    ensures WillWakeInit(Code(pc, p, v, ch).value.next, v.init)
            || Code(pc, p, v, ch).value.effect == Wake(v.init, v.init)
  {
  }

  lemma OwnPc(s: State, p: nat, ch: Choice, op: Op, t: State)
    requires Inv(s) && Runs(s, p, ch, op, t)
    ensures |t.procs| == |s.procs| && t.init == s.init && t.procs[p].pc == op.next
  {
    RunFrame(s, p, ch, op, t);
    RunIsAllowed(s, p, ch, op);
    hide Code, Inv, Apply, Runs, Ready, Sees;
  }

  /** init's waker goes on until init is awake. */
  lemma InitWakerKept(s: State, p: nat, ch: Choice, op: Op, t: State)
    requires Inv(s) && Runs(s, p, ch, op, t) && |s.procs| == |t.procs| && InitWakerComing(s)
             && Committed(t.procs[s.init])
    ensures InitWakerComing(t)
  {
    OwnPc(s, p, ch, op, t);
    assert ProcOk(s.procs[p], p, |s.procs|, s.init);
    hide Code, SpinsOk, ForksOk, SeensOk, SleepersOk, PidsOk, ProcsOk, Touched, Apply, PlaceOk, StateOk;
    var w: nat :| w < |s.procs| && WillWakeInit(s.procs[w].pc, s.init);
    if w != p {
      PcKept(s, p, ch, op, t, w);
    } else {
      WakesOn(s.procs[p].pc, p, Sees(s, p), ch);
      if op.effect == Wake(s.init, s.init) { WokenUp(s, p, ch, op, t, s.init); }
    }
    assert WillWakeInit(t.procs[w].pc, t.init);
  }

  lemma RunSleepers(s: State, p: nat, ch: Choice, op: Op, t: State)
    requires Inv(s) && Runs(s, p, ch, op, t)
    ensures SleepersOk(t)
  {
    RunFrame(s, p, ch, op, t);
    assert t.procs[p].pc == op.next by { RunIsAllowed(s, p, ch, op); }
    forall q: nat, k: nat | q < |t.procs| && k < |t.procs| && IsChild(t.procs[k], q) && Committed(t.procs[q])
                            && t.procs[k].state == ZOMBIE
      ensures q == t.init && InitWakerComing(t)
    {
      RunZombieChild(s, p, ch, op, t, q, k);
      if q == s.init && op.effect == PutParent(k, q) {
        WriteTable(s.procs[p].pc, p, Sees(s, p), ch);
        GivenToInit(s, p, ch, op, k);
        assert WillWakeInit(t.procs[p].pc, t.init);
      } else {
        hide Code, Apply, SpinsOk, ForksOk, SeensOk, PidsOk, ProcsOk, ParentsOk, Runs, Touched, Committed;
        InitWakerKept(s, p, ch, op, t);
      }
    }
  }

  /** A zombie is handed to init only by exit, which then wakes init. */
  lemma GivenToInit(s: State, p: nat, ch: Choice, op: Op, k: nat)
    requires Inv(s) && p < |s.procs| && !Off(s.procs[p].pc) && Code(s.procs[p].pc, p, Sees(s, p), ch) == Some(op)
             && Ready(s, op.effect)
    requires op.effect == PutParent(k, s.init) && k < |s.procs| && s.procs[k].state == ZOMBIE
    ensures WillWakeInit(op.next, s.init)
  {
    WriteTable(s.procs[p].pc, p, Sees(s, p), ch);
    assert Forking(s.procs[p].pc) == Some(k) ==> ForkAt(s.procs[k], k, s.procs[p].pc, p);
  }

  // Pids.

  /** The pid of slot j, and whether it is in use and dead, after an effect. */
  lemma TouchedPid(q: Proc, j: nat, p: nat, e: Effect, newpid: nat)
    requires AllowedOn(q, j, e) && (e.Doze? && j == p ==> q.state == RUNNING)
             && (e.PutParent? && e.k == j ==> q.state != UNUSED)
    requires e.Die? && j == p ==> q.state == RUNNING
    ensures var r := Touched(q, j, p, e, newpid);
            if e == Claim(j) then r.pid == newpid && r.state == USED && q.state == UNUSED
            else if e == Free(j) || e == Collect(j) then r.state == UNUSED
            else r.pid == q.pid && (r.state == UNUSED <==> q.state == UNUSED)
                 && (r.state == ZOMBIE <==> q.state == ZOMBIE || (e.Die? && j == p))
  {
  }

  /** Pids, use and death of every slot after a step, and the new log entry if there is one. */
  lemma RunPid(s: State, p: nat, ch: Choice, op: Op, t: State, j: nat)
    requires Inv(s) && Runs(s, p, ch, op, t) && j < |s.procs| == |t.procs|
    ensures var e := op.effect; var q := s.procs[j]; var r := t.procs[j];
            if e == Claim(j) then r.pid == s.nextpid && r.state == USED && q.state == UNUSED
            else if e == Free(j) || e == Collect(j) then r.state == UNUSED
            else r.pid == q.pid && (r.state == UNUSED <==> q.state == UNUSED)
                 && (r.state == ZOMBIE <==> q.state == ZOMBIE || (e.Die? && j == p))
  {
    RunFrame(s, p, ch, op, t);
    RunIsAllowed(s, p, ch, op);
    WriteTable(s.procs[p].pc, p, Sees(s, p), ch);
    assert ProcOk(s.procs[p], p, |s.procs|, s.init);
    if j != p { RunAllowedOn(s, p, ch, op, j); }
    assert op.effect.PutParent? && op.effect.k == j ==> s.procs[j].state != UNUSED by { assert ParentAt(s, j); }
    hide Code, Inv, Apply, Runs, Touched, Ready, Sees;
    TouchedPid(if j == p then s.procs[p].(pc := op.next) else s.procs[j], j, p, op.effect, s.nextpid);
  }

  /** The logs after a step: exit by a pid that had not exited, collection of one not yet reaped. */
  lemma RunLogs(s: State, p: nat, ch: Choice, op: Op, t: State)
    requires Inv(s) && Runs(s, p, ch, op, t)
    ensures op.effect.Die? ==> s.procs[p].state == RUNNING && t.exited == s.exited + [s.procs[p].pid]
    ensures !op.effect.Die? ==> t.exited == s.exited
    ensures op.effect.Collect? ==> op.effect.k < |s.procs| && s.procs[op.effect.k].state == ZOMBIE
                                   && t.reaped == s.reaped + [Reap(s.procs[op.effect.k].pid, s.procs[p].pid)]
    ensures !op.effect.Collect? ==> t.reaped == s.reaped
    ensures op.effect.Free? ==> op.effect.k < |s.procs| && s.procs[op.effect.k].state == USED
  {
    hide Code, Inv, Apply, Runs, Touched, Ready, Sees, Off, SeenAt, ParentAt, PlaceOk;
    RunsFrom(s, p, ch, op, t);
    RunFrame(s, p, ch, op, t);
    RunIsAllowed(s, p, ch, op);
    InvAt(s, p);
  }

  lemma RunPidAt(s: State, p: nat, ch: Choice, op: Op, t: State, k: nat)
    requires Inv(s) && Runs(s, p, ch, op, t) && k < |s.procs| == |t.procs|
    ensures PidAt(t, k)
  {
    RunFrame(s, p, ch, op, t);
    RunLogs(s, p, ch, op, t);
    RunPid(s, p, ch, op, t, k);
    assert PidAt(s, k) && PidAt(s, p);
    assert op.effect.Collect? ==> PidAt(s, op.effect.k);
    hide Code, SpinsOk, ForksOk, SeensOk, SleepersOk, ProcsOk, ParentsOk, Touched, Apply, Runs;
    if t.procs[k].state != UNUSED {
      forall j: nat | j < |t.procs| && j != k && t.procs[j].state != UNUSED ensures t.procs[j].pid != t.procs[k].pid {
        RunPid(s, p, ch, op, t, j);
        assert PidAt(s, j);
      }
      forall r | r in t.reaped ensures r.child != t.procs[k].pid {
        assert r in s.reaped ==> r.child in s.exited;
      }
    }
  }

  lemma RunExited(s: State, p: nat, ch: Choice, op: Op, t: State, x: nat)
    requires Inv(s) && Runs(s, p, ch, op, t) && |s.procs| == |t.procs| && x in t.exited
    ensures x < t.nextpid && (WasReaped(t, x) || IsZombiePid(t, x))
  {
    RunFrame(s, p, ch, op, t);
    RunLogs(s, p, ch, op, t);
    assert PidAt(s, p);
    hide Code, SpinsOk, ForksOk, SeensOk, SleepersOk, ProcsOk, ParentsOk, Touched, Apply, Runs, PidAt;
    if x !in s.exited {
      RunPid(s, p, ch, op, t, p);
      assert t.procs[p].state == ZOMBIE && t.procs[p].pid == x;
    } else if WasReaped(s, x) {
      var r :| r in s.reaped && r.child == x;
      assert r in t.reaped;
    } else {
      var k: nat :| k < |s.procs| && s.procs[k].state == ZOMBIE && s.procs[k].pid == x;
      RunPid(s, p, ch, op, t, k);
      if op.effect == Collect(k) { assert Reap(x, s.procs[p].pid) in t.reaped; }
      else { assert t.procs[k].state == ZOMBIE && t.procs[k].pid == x; }
    }
  }

  /** No pid is recorded twice, and only exited pids are reaped. */
  lemma RunLists(s: State, p: nat, ch: Choice, op: Op, t: State)
    requires Inv(s) && Runs(s, p, ch, op, t)
    ensures |t.procs| == |s.procs|
    ensures forall i: nat, j: nat :: i < j < |t.exited| ==> t.exited[i] != t.exited[j]
    ensures forall i: nat, j: nat :: i < j < |t.reaped| ==> t.reaped[i].child != t.reaped[j].child
    ensures forall r :: r in t.reaped ==> r.child in t.exited
  {
    hide Code, SpinsOk, ForksOk, SeensOk, SleepersOk, ProcsOk, ParentsOk, Touched, Apply, Runs, WasReaped, IsZombiePid,
      Ready, Sees;
    RunsFrom(s, p, ch, op, t);
    RunFrame(s, p, ch, op, t);
    RunLogs(s, p, ch, op, t);
    assert PidAt(s, p);
    if op.effect.Collect? { assert PidAt(s, op.effect.k); }
  }

  lemma RunPids(s: State, p: nat, ch: Choice, op: Op, t: State)
    requires Inv(s) && Runs(s, p, ch, op, t)
    ensures PidsOk(t)
  {
    hide Code, SpinsOk, ForksOk, SeensOk, SleepersOk, ProcsOk, ParentsOk, Touched, Apply, Runs, WasReaped, IsZombiePid,
      Ready, Sees;
    RunLogs(s, p, ch, op, t);
    RunLists(s, p, ch, op, t);
    hide PidAt;
    forall k: nat | k < |t.procs| ensures PidAt(t, k) { RunPidAt(s, p, ch, op, t, k); }
    forall x | x in t.exited ensures x < t.nextpid && (WasReaped(t, x) || IsZombiePid(t, x)) {
      RunExited(s, p, ch, op, t, x);
    }
  }

  lemma RunKeeps(s: State, p: nat, ch: Choice, op: Op, t: State)
    requires Inv(s) && Runs(s, p, ch, op, t)
    ensures Inv(t)
  {
    RunSpins(s, p, ch, op, t);
    RunProcs(s, p, ch, op, t);
    RunForks(s, p, ch, op, t);
    RunParents(s, p, ch, op, t);
    RunSeens(s, p, ch, op, t);
    RunSleepers(s, p, ch, op, t);
    RunPids(s, p, ch, op, t);
  }

  // The scheduler's steps, yield, and sleeping and waking for other reasons.

  /** A live process moves on or off the CPU, or is woken; it holds no wait_lock before or after. */
  predicate Shifts(q: Proc, r: Proc, p: nat, n: nat, init: nat) {
    && Live(q.state) && Live(r.state) && r.parent == q.parent && r.pid == q.pid && ProcOk(r, p, n, init)
    && W !in Held(q.pc, p) && W !in Held(r.pc, p) && (Committed(r) ==> Committed(q))
    && Forking(r.pc) == Forking(q.pc) && (Base(r.pc).ForkUnlock? || Base(r.pc).ForkRun? <==>
                                            Base(q.pc).ForkUnlock? || Base(q.pc).ForkRun?)
  }

  ghost predicate Shifted(s: State, p: nat, t: State) {
    && p < |s.procs| == |t.procs| && t.init == s.init && t.nextpid == s.nextpid && t.exited == s.exited
       && t.reaped == s.reaped
    && t.procs == s.procs[p := t.procs[p]] && Shifts(s.procs[p], t.procs[p], p, |s.procs|, s.init)
  }

  lemma ShiftForksAndParents(s: State, p: nat, t: State)
    requires Inv(s) && Shifted(s, p, t)
    ensures ProcsOk(t) && ForksOk(t) && ParentsOk(t)
  {
    hide SpinsOk, SeensOk, SleepersOk, PidsOk, PlaceOk, StateOk, Held, Committed;
    forall q: nat | q < |t.procs| && Forking(t.procs[q].pc).Some?
      ensures var k := Forking(t.procs[q].pc).value; k < |t.procs| && ForkAt(t.procs[k], k, t.procs[q].pc, q)
    {
      assert Forking(s.procs[q].pc) == Forking(t.procs[q].pc);
    }
    forall k: nat | k < |t.procs| ensures ParentAt(t, k) { assert ParentAt(s, k); }
  }

  lemma ShiftSeens(s: State, p: nat, t: State)
    requires Inv(s) && Shifted(s, p, t)
    ensures SeensOk(t)
  {
    hide SpinsOk, ForksOk, SleepersOk, PidsOk, PlaceOk, StateOk, Held, Committed, SeenAt, Forking, ProcsOk, ParentsOk;
    forall q: nat | q < |t.procs| ensures SeenAt(t, q) {
      if q == p { SeenNeedsW(t, p); } else { assert SeenAt(s, q); SeenKept(s, t, q); }
    }
  }

  lemma ShiftSleepersAndPids(s: State, p: nat, t: State)
    requires Inv(s) && Shifted(s, p, t)
    ensures SleepersOk(t) && PidsOk(t)
  {
    hide SpinsOk, ForksOk, SeensOk, PlaceOk, StateOk, Committed, ProcsOk, ParentsOk;
    if InitWakerComing(s) {
      var w: nat :| w < |s.procs| && WillWakeInit(s.procs[w].pc, s.init);
      assert WillWakeInit(t.procs[w].pc, t.init);
    }
    forall q: nat, k: nat | q < |t.procs| && k < |t.procs| && IsChild(t.procs[k], q) && Committed(t.procs[q])
                            && t.procs[k].state == ZOMBIE
      ensures q == t.init && InitWakerComing(t)
    {
      assert IsChild(s.procs[k], q);
    }
    forall k: nat | k < |t.procs| ensures PidAt(t, k) { assert PidAt(s, k); }
    forall x | x in t.exited ensures x < t.nextpid && (WasReaped(t, x) || IsZombiePid(t, x)) {
      if IsZombiePid(s, x) {
        var k: nat :| k < |s.procs| && s.procs[k].state == ZOMBIE && s.procs[k].pid == x;
        assert t.procs[k].state == ZOMBIE && t.procs[k].pid == x;
      } else {
        var r :| r in s.reaped && r.child == x;
        assert r in t.reaped;
      }
    }
  }

  lemma ResumeShifts(q: Proc, p: nat, n: nat, init: nat, st: Step)
    requires ProcOk(q, p, n, init) && st.Resume? && Moved(q, st).Some? && P(p) !in Held(q.pc, p)
    ensures var r := Moved(q, st).value;
            Shifts(q, r, p, n, init) && Held(q.pc, p) == {}
            && Held(r.pc, p) == (if q.pc.Asleep? || q.pc.Born? then {P(p)} else {})
  {
  }

  lemma PauseShifts(q: Proc, p: nat, n: nat, init: nat, st: Step)
    requires ProcOk(q, p, n, init) && !st.Resume? && Moved(q, st).Some? && P(p) !in Held(q.pc, p)
    ensures Shifts(q, Moved(q, st).value, p, n, init) && Held(q.pc, p) == {} && Held(Moved(q, st).value.pc, p) == {}
  {
  }

  lemma MovedShifts(q: Proc, p: nat, n: nat, init: nat, st: Step)
    requires ProcOk(q, p, n, init) && Moved(q, st).Some? && P(p) !in Held(q.pc, p)
    ensures var r := Moved(q, st).value;
            Shifts(q, r, p, n, init) && Held(q.pc, p) == {}
            && Held(r.pc, p) == (if st.Resume? && (q.pc.Asleep? || q.pc.Born?) then {P(p)} else {})
  {
    hide Shifts, Held, ProcOk;
    if st.Resume? { ResumeShifts(q, p, n, init, st); } else { PauseShifts(q, p, n, init, st); }
  }

  lemma MovedSpins(s: State, p: nat, t: State)
    requires SpinsOk(s) && p < |s.procs| == |t.procs| && t.procs == s.procs[p := t.procs[p]]
             && Held(s.procs[p].pc, p) == {} && P(p) !in s.owner
    requires (Held(t.procs[p].pc, p) == {P(p)} && t.owner == s.owner[P(p) := Thread(p)])
             || (Held(t.procs[p].pc, p) == {} && t.owner == s.owner)
    ensures SpinsOk(t)
  {
    hide Held, Off;
  }

  lemma DroppedSpins(s: State, p: nat)
    requires SpinsOk(s) && p < |s.procs| && P(p) in s.owner && s.owner[P(p)] == Scheduler
    ensures SpinsOk(s.(owner := s.owner - {P(p)}))
  {
    hide Held, Off;
  }

  /** A step that is not a thread's: only a p->lock is dropped, or one process shifts. */
  lemma OtherStep(s: State, st: Step, t: State)
    requires Inv(s) && !st.Run? && Next(s, st) == Some(t)
    ensures SpinsOk(t) && (t == s.(owner := t.owner) || Shifted(s, st.p, t))
  {
    var p := st.p;
    if st.Drop? {
      hide Inv;
      DroppedSpins(s, p) by { assert Inv(s); }
    } else {
      var q := s.procs[p];
      assert ProcOk(q, p, |s.procs|, s.init) && P(p) !in Held(q.pc, p);
      MovedShifts(q, p, |s.procs|, s.init, st);
      hide Held, Moved, Shifts, ProcsOk, PlaceOk, StateOk, SpinsOk, SeensOk, SleepersOk, PidsOk, ParentsOk, ForksOk;
      MovedSpins(s, p, t);
    }
  }

  lemma StepKeeps(s: State, st: Step)
    requires Inv(s) && Next(s, st).Some?
    ensures Inv(Next(s, st).value)
  {
    var t := Next(s, st).value;
    if st.Run? {
      var op := Code(s.procs[st.p].pc, st.p, Sees(s, st.p), st.ch).value;
      assert Runs(s, st.p, st.ch, op, t);
      hide Inv, Next, Runs;
      RunKeeps(s, st.p, st.ch, op, t);
    } else {
      OtherStep(s, st, t);
      hide Next, SpinsOk, Shifted;
      if t != s.(owner := t.owner) {
        ShiftForksAndParents(s, st.p, t);
        ShiftSeens(s, st.p, t);
        ShiftSleepersAndPids(s, st.p, t);
      } else {
        OwnerAlone(s, t);
      }
    }
  }

  lemma OwnerAlone(s: State, t: State)
    requires Inv(s) && t == s.(owner := t.owner)
    ensures ProcsOk(t) && ForksOk(t) && ParentsOk(t) && SeensOk(t) && SleepersOk(t) && PidsOk(t)
  {
    assert InitWakerComing(s) == InitWakerComing(t);
    forall x ensures WasReaped(t, x) == WasReaped(s, x) && IsZombiePid(t, x) == IsZombiePid(s, x) {}
    forall k: nat | k < |s.procs| ensures ParentAt(t, k) && SeenAt(t, k) && PidAt(t, k) {
      assert ParentAt(s, k) && SeenAt(s, k) && PidAt(s, k);
    }
  }

  // Whole runs.

  /** After userinit: every slot UNUSED but initproc's, which waits to run forkret. */
  ghost predicate Initial(s: State) {
    && s.init < |s.procs| && s.owner == map[] && s.exited == [] && s.reaped == [] && s.nextpid == 2
    && forall k: nat :: k < |s.procs| ==>
         s.procs[k] == if k == s.init then Proc(RUNNABLE, NoChan, None, 1, Born)
             else Proc(UNUSED, NoChan, None, 0, Dead)
  }

  lemma InitialAt(s: State, k: nat)
    requires Initial(s) && k < |s.procs|
    ensures ProcOk(s.procs[k], k, |s.procs|, s.init) && ParentAt(s, k) && PidAt(s, k) && SeenAt(s, k)
    ensures Held(s.procs[k].pc, k) == {} && Forking(s.procs[k].pc) == None && !Committed(s.procs[k])
  {
    SeenNeedsW(s, k);
  }

  lemma InitialIsOk(s: State)
    requires Initial(s)
    ensures Inv(s)
  {
    hide Held, Forking, Committed, ProcOk, ParentAt, PidAt, SeenAt;
    forall k: nat | k < |s.procs|
      ensures ProcOk(s.procs[k], k, |s.procs|, s.init) && ParentAt(s, k) && PidAt(s, k) && SeenAt(s, k)
      ensures Held(s.procs[k].pc, k) == {} && Forking(s.procs[k].pc) == None && !Committed(s.procs[k])
    {
      InitialAt(s, k);
    }
  }

  function RunFrom(s: State, steps: seq<Step>): (t: Option<State>)
    decreases |steps|
  {
    if steps == [] then Some(s)
    else match Next(s, steps[0])
         case None => None
         case Some(u) => RunFrom(u, steps[1..])
  }

  lemma {:induction false} RunFromKeeps(s: State, steps: seq<Step>)
    requires Inv(s) && RunFrom(s, steps).Some?
    ensures Inv(RunFrom(s, steps).value)
    decreases |steps|
  {
    if steps != [] {
      hide Inv, Next;
      StepKeeps(s, steps[0]);
      RunFromKeeps(Next(s, steps[0]).value, steps[1..]);
    }
  }

  /** Every parent pointer names a process that has been started and has not exited; every process
      but init that has been started, and not been collected, has one. */
  ghost predicate ParentsAreLive(s: State) {
    forall k: nat :: k < |s.procs| ==>
      && (s.procs[k].parent.Some? ==> s.procs[k].parent.value < |s.procs|
                                      && Live(s.procs[s.procs[k].parent.value].state))
      && (k != s.init && (Live(s.procs[k].state) || s.procs[k].state == ZOMBIE) ==> s.procs[k].parent.Some?)
  }

  /** With wait_lock free, no process asleep in wait has a zombie child. */
  ghost predicate SleepersHaveNoZombies(s: State) {
    W !in s.owner ==>
      forall q: nat, k: nat {:trigger IsChild(s.procs[k], q)} ::
        q < |s.procs| && k < |s.procs| && IsChild(s.procs[k], q) && s.procs[q].state == SLEEPING
        && s.procs[q].chan == OnProc(q) ==>
          s.procs[k].state != ZOMBIE
  }

  /** No pid exits twice or is collected twice; those exited are the zombies and the collected, and
      no one is both. */
  ghost predicate ReapedOnce(s: State) {
    && (forall i: nat, j: nat :: i < j < |s.exited| ==> s.exited[i] != s.exited[j])
    && (forall i: nat, j: nat :: i < j < |s.reaped| ==> s.reaped[i].child != s.reaped[j].child)
    && (forall x: nat :: x in s.exited <==> WasReaped(s, x) || IsZombiePid(s, x))
    && (forall x: nat :: !(WasReaped(s, x) && IsZombiePid(s, x)))
  }

  /** wait gives up for want of children only when there are none. */
  ghost predicate ChildlessIsTrue(s: State) {
    forall p: nat, k: nat {:trigger IsChild(s.procs[k], p)} ::
      p < |s.procs| && k < |s.procs| && s.procs[p].pc == WaitEnd(false) ==> !IsChild(s.procs[k], p)
  }

  lemma InitWakerHasW(s: State)
    requires SpinsOk(s) && InitWakerComing(s)
    ensures W in s.owner
  {
    var w: nat :| w < |s.procs| && WillWakeInit(s.procs[w].pc, s.init);
    assert W in Held(s.procs[w].pc, w);
  }

  lemma SleepersHold(s: State)
    requires Inv(s)
    ensures SleepersHaveNoZombies(s)
  {
    if W !in s.owner {
      if InitWakerComing(s) { InitWakerHasW(s); }
      hide SpinsOk, ForksOk, ParentsOk, SeensOk, PidsOk, InitWakerComing;
      forall q: nat, k: nat | q < |s.procs| && k < |s.procs| && IsChild(s.procs[k], q) && s.procs[q].state == SLEEPING
                              && s.procs[q].chan == OnProc(q)
        ensures s.procs[k].state != ZOMBIE
      {
        assert ProcOk(s.procs[q], q, |s.procs|, s.init);
      }
    }
  }

  lemma ParentsHold(s: State)
    requires Inv(s)
    ensures ParentsAreLive(s)
  {
    hide SpinsOk, ForksOk, SleepersOk, PidsOk, ProcsOk, SeensOk;
    forall k: nat | k < |s.procs|
      ensures s.procs[k].parent.Some? ==> s.procs[k].parent.value < |s.procs|
                                          && Live(s.procs[s.procs[k].parent.value].state)
      ensures k != s.init && (Live(s.procs[k].state) || s.procs[k].state == ZOMBIE) ==> s.procs[k].parent.Some?
    {
      assert ParentAt(s, k);
    }
  }

  lemma ChildlessHold(s: State)
    requires Inv(s)
    ensures ChildlessIsTrue(s)
  {
    hide SpinsOk, ForksOk, SleepersOk, PidsOk, ProcsOk, ParentsOk;
    forall p: nat, k: nat | p < |s.procs| && k < |s.procs| && s.procs[p].pc == WaitEnd(false)
      ensures !IsChild(s.procs[k], p)
    {
      assert SeenAt(s, p);
    }
  }

  lemma ReapedHold(s: State)
    requires Inv(s)
    ensures ReapedOnce(s)
  {
    hide SpinsOk, ForksOk, ParentsOk, SeensOk, SleepersOk, ProcsOk;
    forall x: nat
      ensures (x in s.exited <==> WasReaped(s, x) || IsZombiePid(s, x)) && !(WasReaped(s, x) && IsZombiePid(s, x))
    {
      if IsZombiePid(s, x) {
        var k: nat :| k < |s.procs| && s.procs[k].state == ZOMBIE && s.procs[k].pid == x;
        assert PidAt(s, k);
      }
    }
  }

  /** Every interleaving from the start keeps all of it. */
  lemma ExitWaitIsSafe(s: State, steps: seq<Step>)
    requires Initial(s) && RunFrom(s, steps).Some?
    ensures var t := RunFrom(s, steps).value;
            ParentsAreLive(t) && SleepersHaveNoZombies(t) && ReapedOnce(t) && ChildlessIsTrue(t)
  {
    InitialIsOk(s);
    RunFromKeeps(s, steps);
    var t := RunFrom(s, steps).value;
    hide *;
    ParentsHold(t);
    SleepersHold(t);
    ReapedHold(t);
    ChildlessHold(t);
  }

  /** From s to t, p collects slot k. */
  ghost predicate Collects(s: State, p: nat, k: nat, t: State)
    requires p < |s.procs| && k < |s.procs|
  {
    && IsChild(s.procs[k], p) && s.procs[k].state == ZOMBIE && s.procs[k].pc == Dead
    && t.reaped == s.reaped + [Reap(s.procs[k].pid, s.procs[p].pid)] && k < |t.procs| && t.procs[k].state == UNUSED
  }

  lemma CollectIsByParent(s: State, st: Step)
    requires Inv(s) && Next(s, st).Some? && Next(s, st).value.reaped != s.reaped
    ensures st.p < |s.procs| && exists k: nat :: k < |s.procs| && Collects(s, st.p, k, Next(s, st).value)
  {
    var op := Code(s.procs[st.p].pc, st.p, Sees(s, st.p), st.ch).value;
    var t := Next(s, st).value;
    RunIsAllowed(s, st.p, st.ch, op);
    assert Runs(s, st.p, st.ch, op, t);
    RunLogs(s, st.p, st.ch, op, t);
    assert Collects(s, st.p, op.effect.k, t);
  }

  /** A step of any run that collects a child is made by its parent of the moment, on a process that has
      exited and left the CPU. */
  lemma ReapedByParent(s: State, steps: seq<Step>, st: Step)
    requires Initial(s) && RunFrom(s, steps).Some?
    ensures var t := RunFrom(s, steps).value;
            Next(t, st).Some? && Next(t, st).value.reaped != t.reaped ==>
              st.p < |t.procs| && exists k: nat :: k < |t.procs| && Collects(t, st.p, k, Next(t, st).value)
  {
    InitialIsOk(s);
    RunFromKeeps(s, steps);
    var t := RunFrom(s, steps).value;
    hide *;
    if Next(t, st).Some? && Next(t, st).value.reaped != t.reaped { CollectIsByParent(t, st); }
  }
}
