/** sleep, wakeup, yield, kill and the scheduler of kernel/proc.c under the sleep locks of
    kernel/sleeplock.c, as a machine of any number of CPUs, processes and sleep locks.
    One step is one shared access of one CPU, or one spinlock taken or released, so every
    interleaving is a run. Spinlocks belong to CPUs. */
module SleepLocks {
  import opened Options

  /** The spinlocks: p->lock of a process, and the inner lock of a sleep lock. */
  datatype Spin = P(proc: nat) | L(lock: nat)

  datatype RunState = RUNNING | RUNNABLE | SLEEPING

  /** Where the kernel thread of a process is. Asleep and Yielded are its two places off the CPU. */
  datatype Pc =
    | Out
    | AcqLock(l: nat) | AcqTest(l: nat) | AcqSet(l: nat) | AcqPid(l: nat) | AcqUnlock(l: nat)
    | SleepLock(l: nat) | SleepUnlock(l: nat) | SleepChan(l: nat) | SleepState(l: nat) | SleepSched(l: nat)
    | Asleep(l: nat) | Woken(l: nat) | WokenUnlock(l: nat) | Relock(l: nat)
    | HoldLock(l: nat) | HoldRead(l: nat) | HoldUnlock(l: nat, yes: bool) | Panicked
    | RelLock(l: nat) | RelClear(l: nat) | RelPid(l: nat)
    | WakeNext(l: nat, k: nat) | WakeTest(l: nat, k: nat) | WakeUnlock(l: nat, k: nat) | RelUnlock(l: nat)
    | KillNext(pid: nat, k: nat) | KillTest(pid: nat, k: nat) | KillUnlock(pid: nat, k: nat, found: bool)
    | YieldLock(back: Pc) | YieldState(back: Pc) | YieldSched(back: Pc) | Yielded(back: Pc) | YieldUnlock(back: Pc)

  /** Two history fields: `held` are the sleep locks a process has put its pid in and not cleared
      since, `on` is the CPU that last switched to it. */
  datatype Proc = Proc(pid: nat, state: RunState, chan: Option<nat>, pc: Pc, held: set<nat>, on: nat)

  /** A CPU is in scheduler(): looking at a process whose lock it took, or about to drop that lock;
      or it runs a process. */
  datatype Cpu = Idle | Look(p: nat) | Drop(p: nat) | Busy(p: nat)

  datatype SLock = SLock(locked: bool, pid: nat)

  datatype State = State(procs: seq<Proc>, cpus: seq<Cpu>, locks: seq<SLock>, owner: map<Spin, nat>)

  /** What a thread may start when it is free to choose, or the scheduler's next process. */
  datatype Choice = Acquire(l: nat) | Release(l: nat) | Kill(pid: nat) | Preempt | Pick(p: nat) | Continue

  datatype Effect =
    | Quiet
    | Take(x: Spin) | Give(x: Spin)
    | PutLocked(l: nat, locked: bool) | PutPid(l: nat, pid: nat)
    | PutChan(chan: Option<nat>) | PutState(state: RunState)
    | Wake(k: nat, l: nat) | WakeAny(k: nat)
    | Leave

  /** One shared access: what it does, where the thread is next, and the sleep locks it then holds. */
  datatype Op = Op(effect: Effect, next: Pc, held: set<nat>)

  /** Interrupts are off exactly while the CPU holds a spinlock, so a timer may fire only here. */
  predicate Interruptible(pc: Pc) {
    pc.Out? || pc.AcqLock? || pc.Relock? || pc.HoldLock? || pc.RelLock? || pc.KillNext?
  }

  /** What a thread can see of the rest: table sizes, the sleep lock it works on, the pid kill compares. */
  datatype View = View(n: nat, m: nat, lock: SLock, victim: nat)

  predicate Yielding(pc: Pc) {
    pc.YieldLock? || pc.YieldState? || pc.YieldSched? || pc.Yielded? || pc.YieldUnlock?
  }

  predicate HasLock(pc: Pc) {
    !pc.Out? && !pc.Panicked? && !pc.KillNext? && !pc.KillTest? && !pc.KillUnlock? && !Yielding(pc)
  }

  function Sees(s: State, pc: Pc): (v: View) {
    View(|s.procs|, |s.locks|,
         if HasLock(pc) && pc.l < |s.locks| then s.locks[pc.l] else SLock(false, 0),
         if pc.KillTest? && pc.k < |s.procs| then s.procs[pc.k].pid else 0)
  }

  predicate Off(pc: Pc) { pc.Asleep? || pc.Yielded? }

  /** The program of a thread: its next access from pc. */
  function Code(me: Proc, p: nat, v: View, ch: Choice): (op: Option<Op>) {
    var h := me.held;
    if ch == Preempt && Interruptible(me.pc) then Some(Op(Quiet, YieldLock(me.pc), h)) else
    match me.pc
    case Out =>
      (match ch
       case Acquire(l) => if l < v.m then Some(Op(Quiet, AcqLock(l), h)) else None
       case Release(l) => if l < v.m then Some(Op(Quiet, HoldLock(l), h)) else None
       case Kill(pid) => Some(Op(Quiet, KillNext(pid, 0), h))
       case _ => None)
    // acquiresleep
    case AcqLock(l) => Some(Op(Take(L(l)), AcqTest(l), h))
    case AcqTest(l) => Some(Op(Quiet, if v.lock.locked then SleepLock(l) else AcqSet(l), h))
    case AcqSet(l) => Some(Op(PutLocked(l, true), AcqPid(l), h))
    case AcqPid(l) => Some(Op(PutPid(l, me.pid), AcqUnlock(l), h + {l}))
    case AcqUnlock(l) => Some(Op(Give(L(l)), Out, h))
    // sleep
    case SleepLock(l) => Some(Op(Take(P(p)), SleepUnlock(l), h))
    case SleepUnlock(l) => Some(Op(Give(L(l)), SleepChan(l), h))
    case SleepChan(l) => Some(Op(PutChan(Some(l)), SleepState(l), h))
    case SleepState(l) => Some(Op(PutState(SLEEPING), SleepSched(l), h))
    case SleepSched(l) => Some(Op(Leave, Asleep(l), h))
    case Woken(l) => Some(Op(PutChan(None), WokenUnlock(l), h))
    case WokenUnlock(l) => Some(Op(Give(P(p)), Relock(l), h))
    case Relock(l) => Some(Op(Take(L(l)), AcqTest(l), h))
    // holdingsleep, whose callers panic unless it answers yes
    case HoldLock(l) => Some(Op(Take(L(l)), HoldRead(l), h))
    case HoldRead(l) => Some(Op(Quiet, HoldUnlock(l, v.lock.locked && v.lock.pid == me.pid), h))
    case HoldUnlock(l, yes) => Some(Op(Give(L(l)), if yes then RelLock(l) else Panicked, h))
    // releasesleep, with wakeup inside
    case RelLock(l) => Some(Op(Take(L(l)), RelClear(l), h))
    case RelClear(l) => Some(Op(PutLocked(l, false), RelPid(l), h - {l}))
    case RelPid(l) => Some(Op(PutPid(l, 0), WakeNext(l, 0), h))
    case WakeNext(l, k) => if k >= v.n then Some(Op(Quiet, RelUnlock(l), h))
                           else if k == p then Some(Op(Quiet, WakeNext(l, k + 1), h))
                           else Some(Op(Take(P(k)), WakeTest(l, k), h))
    case WakeTest(l, k) => Some(Op(Wake(k, l), WakeUnlock(l, k), h))
    case WakeUnlock(l, k) => Some(Op(Give(P(k)), WakeNext(l, k + 1), h))
    case RelUnlock(l) => Some(Op(Give(L(l)), Out, h))
    // kill
    case KillNext(pid, k) => if k >= v.n then Some(Op(Quiet, Out, h)) else Some(Op(Take(P(k)), KillTest(pid, k), h))
    case KillTest(pid, k) => if v.victim == pid then Some(Op(WakeAny(k), KillUnlock(pid, k, true), h))
                             else Some(Op(Quiet, KillUnlock(pid, k, false), h))
    case KillUnlock(pid, k, found) => Some(Op(Give(P(k)), if found then Out else KillNext(pid, k + 1), h))
    // yield
    case YieldLock(back) => Some(Op(Take(P(p)), YieldState(back), h))
    case YieldState(back) => Some(Op(PutState(RUNNABLE), YieldSched(back), h))
    case YieldSched(back) => Some(Op(Leave, Yielded(back), h))
    case YieldUnlock(back) => Some(Op(Give(P(p)), back, h))
    case _ => None
  }

  predicate InRange(s: State, e: Effect) {
    match e
    case PutLocked(l, _) => l < |s.locks|
    case PutPid(l, _) => l < |s.locks|
    case Wake(k, _) => k < |s.procs|
    case WakeAny(k) => k < |s.procs|
    case _ => true
  }

  /** acquire spins while another CPU has the lock. */
  predicate Ready(s: State, e: Effect) { InRange(s, e) && (e.Take? ==> e.x !in s.owner) }

  function SetProc(s: State, p: nat, q: Proc): (t: State)
    requires p < |s.procs|
  {
    s.(procs := s.procs[p := q])
  }

  /** The effect of CPU c, on which p runs. */
  function Apply(s: State, c: nat, p: nat, e: Effect): (t: State)
    requires c < |s.cpus| && p < |s.procs| && InRange(s, e)
    ensures |t.procs| == |s.procs| && |t.cpus| == |s.cpus| && |t.locks| == |s.locks|
  {
    match e
    case Quiet => s
    case Take(x) => s.(owner := s.owner[x := c])
    case Give(x) => s.(owner := s.owner - {x})
    case PutLocked(l, b) => s.(locks := s.locks[l := s.locks[l].(locked := b)])
    case PutPid(l, n) => s.(locks := s.locks[l := s.locks[l].(pid := n)])
    case PutChan(ch) => SetProc(s, p, s.procs[p].(chan := ch))
    case PutState(st) => SetProc(s, p, s.procs[p].(state := st))
    case Wake(k, ch) => if s.procs[k].state == SLEEPING && s.procs[k].chan == Some(ch)
                        then SetProc(s, k, s.procs[k].(state := RUNNABLE)) else s
    case WakeAny(k) => if s.procs[k].state == SLEEPING then SetProc(s, k, s.procs[k].(state := RUNNABLE)) else s
    case Leave => s.(cpus := s.cpus[c := Drop(p)])
  }

  /** Where a thread is once it is switched to. */
  function Resumed(pc: Pc): (r: Pc) {
    match pc
    case Asleep(l) => Woken(l)
    case Yielded(back) => YieldUnlock(back)
    case _ => pc
  }

  /** The next step of CPU c, if it has one. */
  function Next(s: State, c: nat, ch: Choice): (t: Option<State>)
    requires c < |s.cpus|
  {
    match s.cpus[c]
    case Idle =>
      if ch.Pick? && ch.p < |s.procs| && P(ch.p) !in s.owner
      then Some(s.(cpus := s.cpus[c := Look(ch.p)], owner := s.owner[P(ch.p) := c])) else None
    case Look(p) =>
      if p >= |s.procs| then None
      else if s.procs[p].state == RUNNABLE
      then
        var q := s.procs[p].(state := RUNNING, pc := Resumed(s.procs[p].pc), on := c);
        Some(SetProc(s, p, q).(cpus := s.cpus[c := Busy(p)]))
      else Some(s.(cpus := s.cpus[c := Drop(p)]))
    case Drop(p) => Some(s.(cpus := s.cpus[c := Idle], owner := s.owner - {P(p)}))
    case Busy(p) =>
      if p >= |s.procs| then None
      else match Code(s.procs[p], p, Sees(s, s.procs[p].pc), ch)
           case None => None
           case Some(op) =>
             if !Ready(s, op.effect) then None
             else Some(Apply(SetProc(s, p, s.procs[p].(pc := op.next, held := op.held)), c, p, op.effect))
  }

  // Invariants.

  /** The spinlocks the CPU running p holds when p is at pc. */
  function Held(pc: Pc, p: nat): (r: set<Spin>) {
    match pc
    case AcqTest(l) => {L(l)}
    case AcqSet(l) => {L(l)}
    case AcqPid(l) => {L(l)}
    case AcqUnlock(l) => {L(l)}
    case SleepLock(l) => {L(l)}
    case SleepUnlock(l) => {L(l), P(p)}
    case SleepChan(_) => {P(p)}
    case SleepState(_) => {P(p)}
    case SleepSched(_) => {P(p)}
    case Woken(_) => {P(p)}
    case WokenUnlock(_) => {P(p)}
    case HoldRead(l) => {L(l)}
    case HoldUnlock(l, _) => {L(l)}
    case RelClear(l) => {L(l)}
    case RelPid(l) => {L(l)}
    case WakeNext(l, _) => {L(l)}
    case WakeTest(l, k) => {L(l), P(k)}
    case WakeUnlock(l, k) => {L(l), P(k)}
    case RelUnlock(l) => {L(l)}
    case KillTest(_, k) => {P(k)}
    case KillUnlock(_, k, _) => {P(k)}
    case YieldState(_) => {P(p)}
    case YieldSched(_) => {P(p)}
    case YieldUnlock(_) => {P(p)}
    case _ => {}
  }

  function LocksOf(s: State, c: nat): (r: set<Spin>)
    requires c < |s.cpus|
  {
    match s.cpus[c]
    case Idle => {}
    case Look(p) => {P(p)}
    case Drop(p) => {P(p)}
    case Busy(p) => if p < |s.procs| then Held(s.procs[p].pc, p) else {}
  }

  /** A spinlock is owned by exactly the CPU whose place in the code says so. */
  ghost predicate SpinsOk(s: State) {
    && (forall x :: x in s.owner ==> s.owner[x] < |s.cpus| && x in LocksOf(s, s.owner[x]))
    && (forall c, x {:trigger x in LocksOf(s, c)} :: 0 <= c < |s.cpus| && x in LocksOf(s, c) ==>
          x in s.owner && s.owner[x] == c)
  }

  /** A process off the CPU runs nowhere, any other runs on one CPU. */
  ghost predicate RunsOk(s: State) {
    && (forall p :: 0 <= p < |s.procs| && !Off(s.procs[p].pc) ==> s.procs[p].on < |s.cpus|
                                                                  && s.cpus[s.procs[p].on] == Busy(p))
    && (forall c :: 0 <= c < |s.cpus| ==>
          (s.cpus[c].Busy? ==> s.cpus[c].p < |s.procs| && !Off(s.procs[s.cpus[c].p].pc) && s.procs[s.cpus[c].p].on == c)
          && (!s.cpus[c].Idle? ==> s.cpus[c].p < |s.procs|))
  }

  /** What a thread was doing when a timer interrupt made it yield. */
  function Base(pc: Pc): (r: Pc) {
    match pc
    case YieldLock(b) => b
    case YieldState(b) => b
    case YieldSched(b) => b
    case Yielded(b) => b
    case YieldUnlock(b) => b
    case _ => pc
  }

  /** Locks and processes named at a place exist; only places without a spinlock are interrupted. */
  predicate PlaceOk(pc: Pc, p: nat, n: nat, m: nat) {
    && (Yielding(pc) ==> Interruptible(Base(pc)))
    && (HasLock(Base(pc)) ==> Base(pc).l < m)
    && (pc.WakeTest? || pc.WakeUnlock? ==> pc.k < n && pc.k != p)
    && (pc.KillTest? || pc.KillUnlock? ==> pc.k < n)
  }

  /** A process's state and chan fit its place. */
  predicate StateOk(q: Proc) {
    match q.pc
    case SleepState(l) => q.state == RUNNING && q.chan == Some(l)
    case SleepSched(l) => q.state == SLEEPING && q.chan == Some(l)
    case Asleep(l) => q.state != RUNNING && q.chan == Some(l)
    case YieldSched(_) => q.state == RUNNABLE
    case Yielded(_) => q.state == RUNNABLE
    case _ => q.state == RUNNING
  }

  predicate ProcOk(q: Proc, p: nat, n: nat, m: nat) { PlaceOk(q.pc, p, n, m) && StateOk(q) }

  ghost predicate ProcsOk(s: State) {
    && (forall p :: 0 <= p < |s.procs| ==> ProcOk(s.procs[p], p, |s.procs|, |s.locks|))
    && (forall p, q :: 0 <= p < q < |s.procs| ==> s.procs[p].pid != s.procs[q].pid)
  }

  /** q has given up l's inner lock and will be, or is, asleep on l. */
  predicate Committed(q: Proc, l: nat) {
    || q.pc == SleepChan(l) || q.pc == SleepState(l) || q.pc == SleepSched(l)
    || (q.pc == Asleep(l) && q.state == SLEEPING)
  }

  /** The thread at pc is waking l's sleepers and has yet to come to process j. */
  predicate WillWake(pc: Pc, l: nat, j: nat) {
    || pc == RelPid(l)
    || (pc.WakeNext? && pc.l == l && pc.k <= j)
    || (pc.WakeTest? && pc.l == l && pc.k <= j)
    || (pc.WakeUnlock? && pc.l == l && pc.k < j)
  }

  ghost predicate WakerComing(s: State, l: nat, j: nat) {
    exists w :: 0 <= w < |s.procs| && w != j && WillWake(s.procs[w].pc, l, j)
  }

  /** Whoever sleeps on l, or is about to, does so because l is locked or a wakeup is on its way. */
  ghost predicate SleepsOk(s: State) {
    && (forall j, l :: 0 <= j < |s.procs| && 0 <= l < |s.locks| && Committed(s.procs[j], l) ==>
          s.locks[l].locked || WakerComing(s, l, j))
    && (forall j :: 0 <= j < |s.procs| ==> TestOk(s, s.procs[j].pc))
  }

  predicate SawLocked(pc: Pc) { pc.SleepLock? || pc.SleepUnlock? }

  predicate SawUnlocked(pc: Pc) {
    pc.AcqSet? || pc.RelPid? || pc.WakeNext? || pc.WakeTest? || pc.WakeUnlock? || pc.RelUnlock?
  }

  /** What a thread saw or put in `locked` still holds while it keeps the inner lock. */
  predicate TestOk(s: State, pc: Pc) {
    && (SawLocked(pc) ==> pc.l < |s.locks| && s.locks[pc.l].locked)
    && (SawUnlocked(pc) ==> pc.l < |s.locks| && !s.locks[pc.l].locked)
  }

  /** q has set `locked` of l, and not cleared it. */
  predicate Owns(q: Proc, l: nat) { l in q.held || q.pc == AcqPid(l) }

  ghost predicate OwnersLocked(s: State) {
    forall p: nat, l: nat {:trigger Owns(s.procs[p], l)} :: p < |s.procs| && Owns(s.procs[p], l) ==>
      l < |s.locks| && s.locks[l].locked
  }

  ghost predicate OneOwner(s: State) {
    forall p: nat, q: nat, l: nat {:trigger Owns(s.procs[p], l), Owns(s.procs[q], l)} ::
      p < |s.procs| && q < |s.procs| && Owns(s.procs[p], l) && Owns(s.procs[q], l) ==> p == q
  }

  ghost predicate LockedOwned(s: State) {
    forall l: nat :: l < |s.locks| && s.locks[l].locked ==> Owned(s, l)
  }

  ghost predicate PidsOk(s: State) {
    forall p: nat, l: nat {:trigger l in s.procs[p].held} :: p < |s.procs| && l in s.procs[p].held ==>
      l < |s.locks| && s.locks[l].pid == s.procs[p].pid
  }

  ghost predicate ChecksOk(s: State) {
    forall p: nat :: p < |s.procs| ==> CheckOk(s.procs[p])
  }

  ghost predicate OwnersOk(s: State) {
    OwnersLocked(s) && OneOwner(s) && LockedOwned(s) && PidsOk(s) && ChecksOk(s)
  }

  ghost predicate Owned(s: State, l: nat) { exists p :: 0 <= p < |s.procs| && Owns(s.procs[p], l) }

  /** holdingsleep has answered truly, and only the holder goes on to releasesleep. */
  predicate CheckOk(q: Proc) {
    && (q.pc.HoldUnlock? ==> (q.pc.yes <==> q.pc.l in q.held))
    && (Base(q.pc).RelLock? || q.pc.RelClear? ==> Base(q.pc).l in q.held)
  }

  ghost predicate Inv(s: State) {
    SpinsOk(s) && RunsOk(s) && ProcsOk(s) && SleepsOk(s) && OwnersOk(s)
  }

  // Each step keeps the invariant.

  /** Two processes at places that hold spinlock x are one. */
  lemma OneInside(s: State, p: nat, q: nat, x: Spin)
    requires SpinsOk(s) && RunsOk(s) && p < |s.procs| && q < |s.procs|
    requires !Off(s.procs[p].pc) && !Off(s.procs[q].pc)
    requires x in Held(s.procs[p].pc, p) && x in Held(s.procs[q].pc, q)
    ensures p == q
  {
    hide Held;
    assert LocksOf(s, s.procs[p].on) == Held(s.procs[p].pc, p);
    assert LocksOf(s, s.procs[q].on) == Held(s.procs[q].pc, q);
    var c, d := s.procs[p].on, s.procs[q].on;
    assert x in LocksOf(s, c) && x in LocksOf(s, d);
    assert s.cpus[s.procs[p].on] == Busy(p) && s.cpus[s.procs[q].on] == Busy(q);
  }

  /** A thread takes a spinlock it has not, gives one it has, and leaves the CPU with p->lock alone. */
  lemma LockTable(me: Proc, p: nat, v: View, ch: Choice)
    requires ProcOk(me, p, v.n, v.m) && Code(me, p, v, ch).Some?
    ensures var op := Code(me, p, v, ch).value; var e := op.effect;
            && (e.Take? ==> e.x !in Held(me.pc, p) && Held(op.next, p) == Held(me.pc, p) + {e.x})
            && (e.Give? ==> e.x in Held(me.pc, p) && Held(op.next, p) == Held(me.pc, p) - {e.x})
            && (!e.Take? && !e.Give? && !e.Leave? ==> Held(op.next, p) == Held(me.pc, p))
            && (e.Leave? <==> Off(op.next)) && (e.Leave? ==> Held(me.pc, p) == {P(p)})
  {
  }

  function After(me: Proc, op: Op): (q: Proc) {
    var q := me.(pc := op.next, held := op.held);
    match op.effect
    case PutChan(ch) => q.(chan := ch)
    case PutState(st) => q.(state := st)
    case _ => q
  }

  /** A thread moves between sensible places. */
  lemma PlaceTable(me: Proc, p: nat, v: View, ch: Choice)
    requires PlaceOk(me.pc, p, v.n, v.m) && Code(me, p, v, ch).Some?
    ensures PlaceOk(Code(me, p, v, ch).value.next, p, v.n, v.m)
  {
  }

  lemma StateTable(me: Proc, p: nat, v: View, ch: Choice)
    requires StateOk(me) && Code(me, p, v, ch).Some?
    ensures !Yielding(me.pc) || Interruptible(Base(me.pc)) ==> StateOk(After(me, Code(me, p, v, ch).value))
  {
  }

  /** What a thread changes, it has the spinlock of. */
  lemma WriteTable(me: Proc, p: nat, v: View, ch: Choice)
    requires ProcOk(me, p, v.n, v.m) && Code(me, p, v, ch).Some?
    ensures var e := Code(me, p, v, ch).value.effect;
            && (e.PutLocked? ==> e.l < v.m && L(e.l) in Held(me.pc, p)
                                 && me.pc == if e.locked then AcqSet(e.l) else RelClear(e.l))
            && (e.PutPid? ==> e.l < v.m && L(e.l) in Held(me.pc, p) && (me.pc == AcqPid(e.l) || me.pc == RelPid(e.l)))
            && (e.Wake? ==> e.k < v.n && e.k != p && P(e.k) in Held(me.pc, p) && me.pc == WakeTest(e.l, e.k))
            && (e.WakeAny? ==> e.k < v.n && P(e.k) in Held(me.pc, p))
            && ((e.PutChan? || e.PutState? || e.WakeAny?) && me.state != RUNNING ==> false)
  {
  }

  /** An effect of p: who moves, who owns what, and which processes and locks it may change. */
  lemma EffectFrame(s: State, c: nat, p: nat, e: Effect)
    requires c < |s.cpus| && p < |s.procs| && InRange(s, e)
    ensures var t := Apply(s, c, p, e);
            && (forall q :: 0 <= q < |s.procs| ==>
                  t.procs[q].pc == s.procs[q].pc && t.procs[q].on == s.procs[q].on
                  && t.procs[q].held == s.procs[q].held && t.procs[q].pid == s.procs[q].pid)
            && (forall q :: 0 <= q < |s.procs| && t.procs[q] != s.procs[q] ==>
                  if e.Wake? || e.WakeAny? then q == e.k && s.procs[q].state == SLEEPING
                                                && t.procs[q] == s.procs[q].(state := RUNNABLE)
                  else q == p && (e.PutChan? || e.PutState?))
            && t.cpus == (if e.Leave? then s.cpus[c := Drop(p)] else s.cpus)
            && t.owner == (if e.Take? then s.owner[e.x := c] else if e.Give? then s.owner - {e.x} else s.owner)
            && t.locks == (if e.PutLocked? then s.locks[e.l := s.locks[e.l].(locked := e.locked)]
                           else if e.PutPid? then s.locks[e.l := s.locks[e.l].(pid := e.pid)] else s.locks)
  {
  }

  ghost predicate Steps(s: State, c: nat, p: nat, ch: Choice, op: Op, t: State) {
    && c < |s.cpus| && s.cpus[c] == Busy(p) && p < |s.procs|
    && Code(s.procs[p], p, Sees(s, s.procs[p].pc), ch) == Some(op) && Ready(s, op.effect)
    && t == Apply(SetProc(s, p, s.procs[p].(pc := op.next, held := op.held)), c, p, op.effect)
  }

  /** The parts of a thread's step. */
  lemma ThreadFrame(s: State, c: nat, p: nat, ch: Choice, op: Op, t: State)
    requires Steps(s, c, p, ch, op, t)
    ensures |t.procs| == |s.procs| && |t.cpus| == |s.cpus| && |t.locks| == |s.locks|
    ensures forall q :: 0 <= q < |s.procs| ==> t.procs[q].on == s.procs[q].on && t.procs[q].pid == s.procs[q].pid
    ensures forall q :: 0 <= q < |s.procs| && q != p ==>
                          t.procs[q].pc == s.procs[q].pc && t.procs[q].held == s.procs[q].held
                          && t.procs[q].chan == s.procs[q].chan
    ensures forall q :: 0 <= q < |s.procs| && q != p && t.procs[q].state != s.procs[q].state ==>
                          (op.effect.Wake? || op.effect.WakeAny?) && op.effect.k == q && s.procs[q].state == SLEEPING
                          && t.procs[q].state == RUNNABLE
    ensures t.procs[p].pc == op.next && t.procs[p].held == op.held
    ensures !((op.effect.Wake? || op.effect.WakeAny?) && op.effect.k == p && s.procs[p].state == SLEEPING) ==>
              t.procs[p] == After(s.procs[p], op)
    ensures t.cpus == if op.effect.Leave? then s.cpus[c := Drop(p)] else s.cpus
    ensures t.owner == if op.effect.Take? then s.owner[op.effect.x := c]
                       else if op.effect.Give? then s.owner - {op.effect.x} else s.owner
    ensures InRange(s, op.effect)
    ensures t.locks == match op.effect
                       case PutLocked(l, b) => s.locks[l := s.locks[l].(locked := b)]
                       case PutPid(l, n) => s.locks[l := s.locks[l].(pid := n)]
                       case _ => s.locks
  {
    hide Code;
    EffectFrame(SetProc(s, p, s.procs[p].(pc := op.next, held := op.held)), c, p, op.effect);
  }

  lemma ThreadSpins(s: State, c: nat, p: nat, ch: Choice, op: Op, t: State)
    requires SpinsOk(s) && RunsOk(s) && ProcsOk(s) && Steps(s, c, p, ch, op, t)
    ensures SpinsOk(t)
  {
    hide Code, Held, Apply, Off, PlaceOk, StateOk;
    ThreadFrame(s, c, p, ch, op, t);
    LockTable(s.procs[p], p, Sees(s, s.procs[p].pc), ch);
    assert LocksOf(s, c) == Held(s.procs[p].pc, p);
    forall d | 0 <= d < |s.cpus| && d != c ensures LocksOf(t, d) == LocksOf(s, d) {}
    assert LocksOf(t, c) == if op.effect.Leave? then {P(p)} else Held(op.next, p);
  }

  lemma ThreadRuns(s: State, c: nat, p: nat, ch: Choice, op: Op, t: State)
    requires SpinsOk(s) && RunsOk(s) && ProcsOk(s) && Steps(s, c, p, ch, op, t)
    ensures RunsOk(t)
  {
    hide Code, Held, Apply, Off, PlaceOk, StateOk;
    ThreadFrame(s, c, p, ch, op, t);
    LockTable(s.procs[p], p, Sees(s, s.procs[p].pc), ch);
  }

  /** A process whose lock another thread holds is not between setting its state and leaving the CPU. */
  lemma OtherProc(s: State, c: nat, p: nat, ch: Choice, op: Op, t: State, q: nat)
    requires SpinsOk(s) && RunsOk(s) && ProcsOk(s) && Steps(s, c, p, ch, op, t) && q < |s.procs| && q != p
    ensures q < |t.procs| && ProcOk(t.procs[q], q, |t.procs|, |t.locks|)
  {
    hide Code, Apply;
    ThreadFrame(s, c, p, ch, op, t);
    if t.procs[q].state != s.procs[q].state {
      WriteTable(s.procs[p], p, Sees(s, s.procs[p].pc), ch);
      if s.procs[q].pc.SleepSched? { OneInside(s, p, q, P(q)); }
    }
  }

  lemma ThreadProcs(s: State, c: nat, p: nat, ch: Choice, op: Op, t: State)
    requires SpinsOk(s) && RunsOk(s) && ProcsOk(s) && Steps(s, c, p, ch, op, t)
    ensures ProcsOk(t)
  {
    ThreadFrame(s, c, p, ch, op, t);
    hide SpinsOk, RunsOk, Code, Apply, PlaceOk, StateOk, After;
    var v := Sees(s, s.procs[p].pc);
    PlaceTable(s.procs[p], p, v, ch);
    StateTable(s.procs[p], p, v, ch);
    WriteTable(s.procs[p], p, v, ch);
    forall q | 0 <= q < |t.procs| ensures ProcOk(t.procs[q], q, |t.procs|, |t.locks|) {
      if q != p { OtherProc(s, c, p, ch, op, t, q); }
    }
  }

  /** A thread is committed to sleep once it drops the inner lock having seen `locked`; it stays
      a waker of j until it wakes j. */
  lemma SleepTable(me: Proc, p: nat, v: View, ch: Choice, l: nat, j: nat)
    requires ProcOk(me, p, v.n, v.m) && Code(me, p, v, ch).Some?
    ensures var op := Code(me, p, v, ch).value; var e := op.effect;
            && (Committed(After(me, op), l) ==> !e.PutLocked? && (Committed(me, l) || me.pc == SleepUnlock(l)))
            && (WillWake(me.pc, l, j) && j < v.n && j != p ==> WillWake(op.next, l, j)
                                                               || (me.pc == WakeTest(l, j) && e == Wake(j, l)))
            && (e == PutLocked(l, false) ==> WillWake(op.next, l, j))
  {
  }

  lemma TestTable(me: Proc, p: nat, v: View, ch: Choice)
    requires ProcOk(me, p, v.n, v.m) && Code(me, p, v, ch).Some?
    requires (SawLocked(me.pc) ==> v.lock.locked) && (SawUnlocked(me.pc) ==> !v.lock.locked)
    ensures var op := Code(me, p, v, ch).value; var e := op.effect;
            && (SawLocked(op.next) ==> HasLock(me.pc) && op.next.l == me.pc.l && v.lock.locked && !e.PutLocked?)
            && (SawUnlocked(op.next) ==> HasLock(me.pc) && op.next.l == me.pc.l
                                         && if e.PutLocked? then !e.locked else !v.lock.locked)
  {
  }

  /** Only the thread inside l's inner lock changes `locked`. */
  lemma OtherTest(s: State, c: nat, p: nat, ch: Choice, op: Op, t: State, q: nat)
    requires SpinsOk(s) && RunsOk(s) && ProcsOk(s) && SleepsOk(s) && Steps(s, c, p, ch, op, t) && q < |s.procs|
             && q != p
    ensures q < |t.procs| && TestOk(t, t.procs[q].pc)
  {
    hide Code, Apply;
    ThreadFrame(s, c, p, ch, op, t);
    WriteTable(s.procs[p], p, Sees(s, s.procs[p].pc), ch);
    if (SawLocked(s.procs[q].pc)
        || SawUnlocked(s.procs[q].pc)) && op.effect.PutLocked? && op.effect.l == s.procs[q].pc.l {
      OneInside(s, p, q, L(op.effect.l));
    }
  }

  lemma OwnTest(s: State, c: nat, p: nat, ch: Choice, op: Op, t: State)
    requires SpinsOk(s) && RunsOk(s) && ProcsOk(s) && SleepsOk(s) && Steps(s, c, p, ch, op, t)
    ensures p < |t.procs| && TestOk(t, t.procs[p].pc)
  {
    ThreadFrame(s, c, p, ch, op, t);
    var v := Sees(s, s.procs[p].pc);
    TestTable(s.procs[p], p, v, ch);
    PlaceTable(s.procs[p], p, v, ch);
    WriteTable(s.procs[p], p, v, ch);
    hide Code, Apply;
  }

  /** A process still committed to sleep on l was so before, and is not the one just woken. */
  lemma StillCommitted(s: State, c: nat, p: nat, ch: Choice, op: Op, t: State, j: nat, l: nat)
    requires SpinsOk(s) && RunsOk(s) && ProcsOk(s) && Steps(s, c, p, ch, op, t)
    requires j < |t.procs| == |s.procs| && j != p && Committed(t.procs[j], l)
    ensures Committed(s.procs[j], l) && op.effect != Wake(j, l)
  {
    ThreadFrame(s, c, p, ch, op, t);
    if op.effect == Wake(j, l) {
      WriteTable(s.procs[p], p, Sees(s, s.procs[p].pc), ch);
      hide Code;
      if !Off(s.procs[j].pc) { OneInside(s, p, j, P(j)); }
    }
  }

  /** No wakeup passes a committed process over. */
  lemma ThreadSleeper(s: State, c: nat, p: nat, ch: Choice, op: Op, t: State, j: nat, l: nat)
    requires SpinsOk(s) && RunsOk(s) && ProcsOk(s) && SleepsOk(s) && Steps(s, c, p, ch, op, t)
    requires j < |t.procs| == |s.procs| && l < |t.locks| == |s.locks| && Committed(t.procs[j], l)
    ensures t.locks[l].locked || WakerComing(t, l, j)
  {
    hide Code, Apply, WillWake, After, PlaceOk, SpinsOk, RunsOk, Committed, HasLock;
    var v := Sees(s, s.procs[p].pc);
    ThreadFrame(s, c, p, ch, op, t);
    SleepTable(s.procs[p], p, v, ch, l, j);
    if j != p { StillCommitted(s, c, p, ch, op, t, j, l); }
    else if op.effect.Wake? || op.effect.WakeAny? { WriteTable(s.procs[p], p, v, ch); }
    assert TestOk(s, s.procs[p].pc);
    if !t.locks[l].locked && s.locks[l].locked {
      assert WillWake(t.procs[p].pc, l, j);
    } else if !t.locks[l].locked {
      var w :| 0 <= w < |s.procs| && w != j && WillWake(s.procs[w].pc, l, j);
      assert WillWake(t.procs[w].pc, l, j);
    }
  }

  lemma ThreadSleeps(s: State, c: nat, p: nat, ch: Choice, op: Op, t: State)
    requires SpinsOk(s) && RunsOk(s) && ProcsOk(s) && SleepsOk(s) && Steps(s, c, p, ch, op, t)
    ensures SleepsOk(t)
  {
    ThreadFrame(s, c, p, ch, op, t);
    hide Code, Apply, SpinsOk, RunsOk, ProcsOk, WakerComing, TestOk, Committed, Steps;
    forall j, l | 0 <= j < |t.procs| && 0 <= l < |t.locks| && Committed(t.procs[j], l)
      ensures t.locks[l].locked || WakerComing(t, l, j)
    {
      ThreadSleeper(s, c, p, ch, op, t, j, l);
    }
    forall j | 0 <= j < |t.procs| ensures TestOk(t, t.procs[j].pc) {
      if j == p { OwnTest(s, c, p, ch, op, t); } else { OtherTest(s, c, p, ch, op, t, j); }
    }
  }

  /** Setting `locked` makes an owner, clearing it unmakes one, and no other step does either. */
  lemma OwnTable(me: Proc, p: nat, v: View, ch: Choice, l: nat)
    requires ProcOk(me, p, v.n, v.m) && CheckOk(me) && Code(me, p, v, ch).Some?
    ensures var op := Code(me, p, v, ch).value; var e := op.effect; var q := After(me, op);
            && (Owns(q, l) <==> (Owns(me, l) && e != PutLocked(l, false)) || e == PutLocked(l, true))
            && (e == PutLocked(l, false) ==> Owns(me, l))
            && (l in q.held && l !in me.held ==> e == PutPid(l, me.pid))
            && (e.PutPid? && e.l == l ==> (Owns(me, l) && e.pid == me.pid) || me.pc == RelPid(l))
  {
  }

  lemma CheckTable(me: Proc, p: nat, v: View, ch: Choice)
    requires ProcOk(me, p, v.n, v.m) && CheckOk(me) && Code(me, p, v, ch).Some?
    requires me.pc.HoldRead? ==> (v.lock.locked && v.lock.pid == me.pid <==> me.pc.l in me.held)
    ensures CheckOk(After(me, Code(me, p, v, ch).value))
  {
  }

  /** What holdingsleep reads under the inner lock tells whether its caller holds the lock. */
  lemma HoldingIsExact(s: State, p: nat, l: nat)
    requires Inv(s) && p < |s.procs| && l < |s.locks| && s.procs[p].pc == HoldRead(l)
    ensures s.locks[l].locked && s.locks[l].pid == s.procs[p].pid <==> l in s.procs[p].held
  {
    if l in s.procs[p].held { assert Owns(s.procs[p], l); }
    if s.locks[l].locked {
      assert Owned(s, l);
      var q :| 0 <= q < |s.procs| && Owns(s.procs[q], l);
      if s.procs[q].pc == AcqPid(l) { OneInside(s, p, q, L(l)); }
    }
  }

  /** The owner part of a step, for process q and lock l. */
  lemma ThreadOwner(s: State, c: nat, p: nat, ch: Choice, op: Op, t: State, q: nat, l: nat)
    requires ProcsOk(s) && SleepsOk(s) && OwnersOk(s) && Steps(s, c, p, ch, op, t) && q < |t.procs| == |s.procs|
             && |t.locks| == |s.locks|
    ensures Owns(t.procs[q], l) <==> if q == p then (Owns(s.procs[p], l) && op.effect != PutLocked(l, false))
                                                    || op.effect == PutLocked(l, true)
                                     else Owns(s.procs[q], l)
    ensures Owns(t.procs[q], l) ==> l < |t.locks| && t.locks[l].locked
    ensures l in t.procs[q].held ==> l < |t.locks| && t.locks[l].pid == t.procs[q].pid
  {
    var v := Sees(s, s.procs[p].pc);
    ThreadFrame(s, c, p, ch, op, t);
    OwnTable(s.procs[p], p, v, ch, l);
    hide Code, Apply, CheckOk, StateOk, PlaceOk;
    assert t.procs[p].pc == After(s.procs[p], op).pc && t.procs[p].held == After(s.procs[p], op).held;
    assert TestOk(s, s.procs[p].pc);
    assert Owns(s.procs[q], l) ==> l < |s.locks| && s.locks[l].locked;
    assert Owns(s.procs[p], l) && Owns(s.procs[q], l) ==> p == q;
  }

  /** A locked sleep lock still has an owner after a step. */
  lemma ThreadOwned(s: State, c: nat, p: nat, ch: Choice, op: Op, t: State, l: nat)
    requires ProcsOk(s) && SleepsOk(s) && OwnersOk(s) && Steps(s, c, p, ch, op, t) && |t.procs| == |s.procs|
    requires l < |t.locks| == |s.locks| && t.locks[l].locked
    ensures Owned(t, l)
  {
    ThreadOwner(s, c, p, ch, op, t, p, l);
    if op.effect == PutLocked(l, true) { assert Owns(t.procs[p], l); }
    else {
      ThreadFrame(s, c, p, ch, op, t);
      hide Code, Apply, Owns, ProcsOk, SleepsOk;
      assert Owned(s, l);
      var q :| 0 <= q < |s.procs| && Owns(s.procs[q], l);
      ThreadOwner(s, c, p, ch, op, t, q, l);
      assert Owns(t.procs[q], l);
    }
  }

  lemma ThreadCheck(s: State, c: nat, p: nat, ch: Choice, op: Op, t: State)
    requires Inv(s) && Steps(s, c, p, ch, op, t)
    ensures p < |t.procs| && CheckOk(t.procs[p])
  {
    if s.procs[p].pc.HoldRead? { HoldingIsExact(s, p, s.procs[p].pc.l); }
    ThreadFrame(s, c, p, ch, op, t);
    CheckTable(s.procs[p], p, Sees(s, s.procs[p].pc), ch);
    assert t.procs[p].pc == After(s.procs[p], op).pc && t.procs[p].held == After(s.procs[p], op).held;
  }

  /** Two owners of l are one, after a step too. */
  lemma ThreadOneOwner(s: State, c: nat, p: nat, ch: Choice, op: Op, t: State, a: nat, b: nat, l: nat)
    requires Inv(s) && Steps(s, c, p, ch, op, t) && a < |t.procs| == |s.procs| && b < |t.procs|
             && |t.locks| == |s.locks|
    requires Owns(t.procs[a], l) && Owns(t.procs[b], l)
    ensures a == b
  {
    hide Code, Apply, Owns, Owned, SpinsOk, RunsOk, ProcsOk, SleepsOk, CheckOk;
    ThreadOwner(s, c, p, ch, op, t, a, l);
    ThreadOwner(s, c, p, ch, op, t, b, l);
    if op.effect == PutLocked(l, true) && a != b { NobodyElse(s, c, p, ch, op, l, if a == p then b else a); }
  }

  lemma ThreadSizes(s: State, c: nat, p: nat, ch: Choice, op: Op, t: State)
    requires Steps(s, c, p, ch, op, t)
    ensures p < |t.procs| == |s.procs| && |t.locks| == |s.locks|
  {
    hide Code;
  }

  lemma ThreadChecks(s: State, c: nat, p: nat, ch: Choice, op: Op, t: State)
    requires Inv(s) && Steps(s, c, p, ch, op, t)
    ensures ChecksOk(t)
  {
    hide Code, Apply, SpinsOk, RunsOk, ProcsOk, SleepsOk, OwnersLocked, OneOwner, LockedOwned, PidsOk;
    ThreadFrame(s, c, p, ch, op, t);
    ThreadCheck(s, c, p, ch, op, t);
  }

  lemma ThreadOwners(s: State, c: nat, p: nat, ch: Choice, op: Op, t: State)
    requires Inv(s) && Steps(s, c, p, ch, op, t)
    ensures OwnersOk(t)
  {
    hide Code, Apply, Owns, Owned, Steps, SpinsOk, RunsOk, ProcsOk, SleepsOk;
    ThreadSizes(s, c, p, ch, op, t);
    ThreadChecks(s, c, p, ch, op, t);
    forall q: nat, l: nat {:trigger Owns(t.procs[q], l)} | q < |t.procs| && Owns(t.procs[q], l)
      ensures l < |t.locks| && t.locks[l].locked
    {
      ThreadOwner(s, c, p, ch, op, t, q, l);
    }
    forall q: nat, l: nat {:trigger l in t.procs[q].held} | q < |t.procs| && l in t.procs[q].held
      ensures l < |t.locks| && t.locks[l].pid == t.procs[q].pid
    {
      ThreadOwner(s, c, p, ch, op, t, q, l);
    }
    forall l: nat | l < |t.locks| && t.locks[l].locked ensures Owned(t, l) { ThreadOwned(s, c, p, ch, op, t, l); }
    forall a: nat, b: nat, l: nat | a < |t.procs| && b < |t.procs| && Owns(t.procs[a], l) && Owns(t.procs[b], l)
      ensures a == b
    {
      ThreadOneOwner(s, c, p, ch, op, t, a, b, l);
    }
  }

  /** A thread that sets `locked` found it clear under the inner lock, so nobody owned it. */
  lemma NobodyElse(s: State, c: nat, p: nat, ch: Choice, op: Op, l: nat, q: nat)
    requires Inv(s) && c < |s.cpus| && p < |s.procs| && q < |s.procs|
             && Code(s.procs[p], p, Sees(s, s.procs[p].pc), ch) == Some(op)
    requires op.effect == PutLocked(l, true)
    ensures !Owns(s.procs[q], l)
  {
    assert s.procs[p].pc == AcqSet(l) && TestOk(s, s.procs[p].pc);
  }

  /** A step of the scheduler: taking a process's lock, switching to it, or dropping the lock. */
  ghost predicate Schedules(s: State, c: nat, ch: Choice, t: State) {
    c < |s.cpus| && !s.cpus[c].Busy? && Next(s, c, ch) == Some(t)
  }

  /** A CPU that holds p->lock in the scheduler keeps p from being inside its own lock. */
  lemma NotLooking(s: State, c: nat, p: nat)
    requires SpinsOk(s) && RunsOk(s) && c < |s.cpus| && p < |s.procs| && s.cpus[c] == Look(p)
    ensures Off(s.procs[p].pc) || P(p) !in Held(s.procs[p].pc, p)
  {
    hide Held;
    assert P(p) in LocksOf(s, c);
    if !Off(s.procs[p].pc) { assert LocksOf(s, s.procs[p].on) == Held(s.procs[p].pc, p); }
  }

  /** Only a process off the CPU is switched to. */
  lemma SwitchesToOff(s: State, c: nat, p: nat)
    requires SpinsOk(s) && RunsOk(s) && ProcsOk(s) && c < |s.cpus| && s.cpus[c] == Look(p) && p < |s.procs|
             && s.procs[p].state == RUNNABLE
    ensures Off(s.procs[p].pc)
  {
    if s.procs[p].pc.YieldSched? { NotLooking(s, c, p); }
  }

  /** What the scheduler does to the spinlocks. */
  lemma SchedFrame(s: State, c: nat, ch: Choice, t: State)
    requires Schedules(s, c, ch, t)
    ensures |t.cpus| == |s.cpus| && |t.procs| == |s.procs|
    ensures if s.cpus[c].Idle? then ch.Pick? && P(ch.p) !in s.owner && t.owner == s.owner[P(ch.p) := c]
            else if s.cpus[c].Drop? then t.owner == s.owner - {P(s.cpus[c].p)} else t.owner == s.owner
  {
    hide Code;
  }

  lemma SchedOther(s: State, c: nat, ch: Choice, t: State, d: nat)
    requires SpinsOk(s) && RunsOk(s) && ProcsOk(s) && Schedules(s, c, ch, t) && d < |s.cpus| && d != c
    ensures |t.cpus| == |s.cpus| && LocksOf(t, d) == LocksOf(s, d)
  {
    hide Code, Held;
    if s.cpus[c].Look? && s.procs[s.cpus[c].p].state == RUNNABLE { SwitchesToOff(s, c, s.cpus[c].p); }
  }

  lemma SchedOwn(s: State, c: nat, ch: Choice, t: State)
    requires SpinsOk(s) && RunsOk(s) && ProcsOk(s) && Schedules(s, c, ch, t)
    ensures |t.cpus| == |s.cpus|
    ensures LocksOf(s, c) == if s.cpus[c].Idle? then {} else {P(s.cpus[c].p)}
    ensures LocksOf(t, c) == if s.cpus[c].Drop? then {} else if s.cpus[c].Idle? then {P(ch.p)} else {P(s.cpus[c].p)}
  {
    hide Code;
    if s.cpus[c].Look? && s.procs[s.cpus[c].p].state == RUNNABLE { SwitchesToOff(s, c, s.cpus[c].p); }
  }

  lemma SchedSpins(s: State, c: nat, ch: Choice, t: State)
    requires SpinsOk(s) && RunsOk(s) && ProcsOk(s) && Schedules(s, c, ch, t)
    ensures SpinsOk(t)
  {
    hide LocksOf, RunsOk, ProcsOk;
    SchedFrame(s, c, ch, t);
    forall d: nat | d < |s.cpus| && d != c ensures LocksOf(t, d) == LocksOf(s, d) { SchedOther(s, c, ch, t, d); }
    SchedOwn(s, c, ch, t);
    hide Schedules;
  }

  lemma SchedRuns(s: State, c: nat, ch: Choice, t: State)
    requires SpinsOk(s) && RunsOk(s) && ProcsOk(s) && Schedules(s, c, ch, t)
    ensures RunsOk(t)
  {
    hide Code, PlaceOk, StateOk;
    if s.cpus[c].Look? && s.procs[s.cpus[c].p].state == RUNNABLE { SwitchesToOff(s, c, s.cpus[c].p); }
  }

  lemma SchedProcs(s: State, c: nat, ch: Choice, t: State)
    requires SpinsOk(s) && RunsOk(s) && ProcsOk(s) && Schedules(s, c, ch, t)
    ensures ProcsOk(t)
  {
    hide Code;
    if s.cpus[c].Look? && s.procs[s.cpus[c].p].state == RUNNABLE { SwitchesToOff(s, c, s.cpus[c].p); }
  }

  /** Nothing changed but that threads off the CPU may have been switched to. */
  ghost predicate Resumes(s: State, t: State) {
    && |t.procs| == |s.procs| && t.locks == s.locks
    && forall q :: 0 <= q < |s.procs| ==> t.procs[q] == s.procs[q] || ResumesProc(s.procs[q], t.procs[q])
  }

  predicate ResumesProc(q: Proc, r: Proc) {
    Off(q.pc) && r.pc == Resumed(q.pc) && r.held == q.held && r.pid == q.pid
  }

  lemma SchedResumes(s: State, c: nat, ch: Choice, t: State)
    requires Inv(s) && Schedules(s, c, ch, t)
    ensures Resumes(s, t)
  {
    if s.cpus[c].Look? && s.procs[s.cpus[c].p].state == RUNNABLE { SwitchesToOff(s, c, s.cpus[c].p); }
  }

  lemma ResumedProc(q: Proc, r: Proc, l: nat, j: nat)
    requires ResumesProc(q, r) && CheckOk(q)
    ensures !Committed(r, l) && !WillWake(q.pc, l, j) && !SawLocked(r.pc) && !SawUnlocked(r.pc)
    ensures CheckOk(r) && (Owns(r, l) <==> Owns(q, l))
  {
  }

  lemma ResumedSleeps(s: State, t: State)
    requires SleepsOk(s) && OwnersOk(s) && Resumes(s, t)
    ensures SleepsOk(t)
  {
    hide Committed, WillWake, CheckOk, Owns, SawLocked, SawUnlocked, ResumesProc;
    forall j, l | 0 <= j < |t.procs| && 0 <= l < |t.locks| && Committed(t.procs[j], l)
      ensures t.locks[l].locked || WakerComing(t, l, j)
    {
      if t.procs[j] != s.procs[j] { ResumedProc(s.procs[j], t.procs[j], l, j); }
      if !s.locks[l].locked {
        var w :| 0 <= w < |s.procs| && w != j && WillWake(s.procs[w].pc, l, j);
        if t.procs[w] != s.procs[w] { ResumedProc(s.procs[w], t.procs[w], l, j); }
        assert WillWake(t.procs[w].pc, l, j);
      }
    }
    forall j | 0 <= j < |t.procs| ensures TestOk(t, t.procs[j].pc) {
      assert TestOk(s, s.procs[j].pc);
      if t.procs[j] != s.procs[j] { ResumedProc(s.procs[j], t.procs[j], 0, 0); }
    }
  }

  lemma ResumedOwners(s: State, t: State)
    requires OwnersOk(s) && Resumes(s, t)
    ensures OwnersOk(t)
  {
    hide Committed, WillWake, CheckOk, Owns;
    forall q: nat, l: nat | q < |t.procs|
      ensures Owns(t.procs[q], l) <==> Owns(s.procs[q], l)
      ensures CheckOk(t.procs[q]) && t.procs[q].held == s.procs[q].held && t.procs[q].pid == s.procs[q].pid
    {
      assert CheckOk(s.procs[q]);
      if t.procs[q] != s.procs[q] { ResumedProc(s.procs[q], t.procs[q], l, 0); }
    }
    forall q: nat | q < |t.procs| ensures CheckOk(t.procs[q]) { assert Owns(t.procs[q], 0) <==> Owns(s.procs[q], 0); }
    forall l: nat | l < |t.locks| && t.locks[l].locked ensures Owned(t, l) {
      assert Owned(s, l);
      var q :| 0 <= q < |s.procs| && Owns(s.procs[q], l);
      assert Owns(t.procs[q], l);
    }
  }

  lemma StepKeeps(s: State, c: nat, ch: Choice)
    requires Inv(s) && c < |s.cpus| && Next(s, c, ch).Some?
    ensures Inv(Next(s, c, ch).value)
  {
    var t := Next(s, c, ch).value;
    if s.cpus[c].Busy? {
      var p := s.cpus[c].p;
      var op := Code(s.procs[p], p, Sees(s, s.procs[p].pc), ch).value;
      assert Steps(s, c, p, ch, op, t);
      hide Code, Apply, Next, SpinsOk, RunsOk, ProcsOk, SleepsOk, OwnersOk, Steps;
      ThreadSpins(s, c, p, ch, op, t);
      ThreadRuns(s, c, p, ch, op, t);
      ThreadProcs(s, c, p, ch, op, t);
      ThreadSleeps(s, c, p, ch, op, t);
      ThreadOwners(s, c, p, ch, op, t);
    } else {
      assert Schedules(s, c, ch, t);
      hide Code, Apply, Next, SpinsOk, RunsOk, ProcsOk, SleepsOk, OwnersOk, Schedules;
      SchedSpins(s, c, ch, t);
      SchedRuns(s, c, ch, t);
      SchedProcs(s, c, ch, t);
      SchedResumes(s, c, ch, t);
      ResumedSleeps(s, t);
      ResumedOwners(s, t);
    }
  }

  // Whole runs.

  /** Every process waits for its first turn, every lock is free, pids differ. */
  ghost predicate Initial(s: State) {
    && (forall p :: 0 <= p < |s.procs| ==>
          s.procs[p].pc == Yielded(Out) && s.procs[p].state == RUNNABLE && s.procs[p].held == {}
          && s.procs[p].chan == None)
    && (forall p, q :: 0 <= p < q < |s.procs| ==> s.procs[p].pid != s.procs[q].pid)
    && (forall c :: 0 <= c < |s.cpus| ==> s.cpus[c] == Idle)
    && (forall l :: 0 <= l < |s.locks| ==> s.locks[l] == SLock(false, 0))
    && s.owner == map[]
  }

  /** The state after CPUs take the given steps in the given order. */
  function RunFrom(s: State, steps: seq<(nat, Choice)>): (t: Option<State>)
    decreases |steps|
  {
    if steps == [] then Some(s)
    else if steps[0].0 >= |s.cpus| then None
    else match Next(s, steps[0].0, steps[0].1)
         case None => None
         case Some(u) => RunFrom(u, steps[1..])
  }

  lemma InitialIsOk(s: State)
    requires Initial(s)
    ensures Inv(s)
  {
    assert SpinsOk(s) && RunsOk(s);
    assert ProcsOk(s);
    assert SleepsOk(s);
    forall q: nat, l: nat | q < |s.procs| ensures !Owns(s.procs[q], l) && l !in s.procs[q].held && CheckOk(s.procs[q]) {
    }
    hide Owns, CheckOk, SpinsOk, RunsOk, ProcsOk, SleepsOk;
  }

  lemma {:induction false} RunKeeps(s: State, steps: seq<(nat, Choice)>)
    requires Inv(s) && RunFrom(s, steps).Some?
    ensures Inv(RunFrom(s, steps).value)
    decreases |steps|
  {
    if steps != [] {
      hide Inv, Next;
      StepKeeps(s, steps[0].0, steps[0].1);
      RunKeeps(Next(s, steps[0].0, steps[0].1).value, steps[1..]);
    }
  }

  /** A process SLEEPING on a sleep lock whose inner lock is free finds it locked, by a process that
      holds it. */
  ghost predicate NoLostWakeup(s: State) {
    forall j, l: nat :: 0 <= j < |s.procs| && s.procs[j].state == SLEEPING && s.procs[j].chan == Some(l)
                        && L(l) !in s.owner ==>
      l < |s.locks| && s.locks[l].locked && exists p :: 0 <= p < |s.procs| && l in s.procs[p].held
  }

  /** A sleep lock has at most one holder, and `locked` and `pid` say which. */
  ghost predicate OneHolder(s: State) {
    && (forall p: nat, q: nat, l: nat ::
          p < |s.procs| && q < |s.procs| && l in s.procs[p].held && l in s.procs[q].held ==> p == q)
    && (forall p: nat, l: nat {:trigger l in s.procs[p].held} :: p < |s.procs| && l in s.procs[p].held ==>
          l < |s.locks| && s.locks[l] == SLock(true, s.procs[p].pid))
  }

  /** When wakeup(l) has come to the end of the table, no process is left asleep on l, or
      past giving up l's inner lock on its way to sleep. */
  ghost predicate WakeupReachesAll(s: State) {
    forall p, j :: 0 <= p < |s.procs| && 0 <= j < |s.procs| && s.procs[p].pc.RelUnlock? ==>
      !Committed(s.procs[j], s.procs[p].pc.l)
  }

  /** sched is entered with p->lock alone and a state other than RUNNING, acquire never by the CPU
      that has the lock, release only by it, and no process runs on two CPUs. */
  ghost predicate SpinDiscipline(s: State) {
    && (forall c, ch :: 0 <= c < |s.cpus| && s.cpus[c].Busy? ==> DisciplineAt(s, c, ch))
    && (forall c, d :: 0 <= c < |s.cpus| && 0 <= d < |s.cpus| && s.cpus[c].Busy? && s.cpus[c] == s.cpus[d] ==> c == d)
  }

  ghost predicate DisciplineAt(s: State, c: nat, ch: Choice)
    requires c < |s.cpus| && s.cpus[c].Busy?
  {
    var p := s.cpus[c].p;
    p < |s.procs| &&
    match Code(s.procs[p], p, Sees(s, s.procs[p].pc), ch)
    case None => true
    case Some(op) =>
      match op.effect
      case Take(x) => !(x in s.owner && s.owner[x] == c)
      case Give(x) => x in s.owner && s.owner[x] == c
      case Leave => s.procs[p].state != RUNNING && forall x :: x in s.owner && s.owner[x] == c <==> x == P(p)
      case _ => true
  }

  /** The thread that will wake j, or is setting the pid of l, is inside l's inner lock. */
  lemma InsideLock(s: State, w: nat, l: nat)
    requires SpinsOk(s) && RunsOk(s) && w < |s.procs| && !Off(s.procs[w].pc) && L(l) in Held(s.procs[w].pc, w)
    ensures L(l) in s.owner
  {
    hide Held;
    assert LocksOf(s, s.procs[w].on) == Held(s.procs[w].pc, w);
  }

  lemma WakerInside(pc: Pc, w: nat, l: nat, j: nat)
    requires WillWake(pc, l, j) || pc == AcqPid(l)
    ensures !Off(pc) && L(l) in Held(pc, w) && !pc.RelUnlock?
  {
  }

  lemma SleeperIsCommitted(q: Proc, p: nat, n: nat, m: nat, l: nat)
    requires ProcOk(q, p, n, m) && q.state == SLEEPING && q.chan == Some(l)
    ensures l < m && Committed(q, l)
  {
  }

  lemma SleeperWaitsForHolder(s: State, j: nat, l: nat)
    requires Inv(s) && j < |s.procs| && s.procs[j].state == SLEEPING && s.procs[j].chan == Some(l) && L(l) !in s.owner
    ensures l < |s.locks| && s.locks[l].locked && exists p :: 0 <= p < |s.procs| && l in s.procs[p].held
  {
    SleeperIsCommitted(s.procs[j], j, |s.procs|, |s.locks|, l);
    hide SpinsOk, RunsOk, Committed, WillWake, Held;
    if WakerComing(s, l, j) {
      var w :| 0 <= w < |s.procs| && w != j && WillWake(s.procs[w].pc, l, j);
      WakerInside(s.procs[w].pc, w, l, j);
      InsideLock(s, w, l);
    }
    assert Owned(s, l);
    var p :| 0 <= p < |s.procs| && Owns(s.procs[p], l);
    if s.procs[p].pc == AcqPid(l) {
      WakerInside(s.procs[p].pc, p, l, j);
      InsideLock(s, p, l);
    }
  }

  lemma WakeupLeavesNone(s: State, p: nat, j: nat)
    requires Inv(s) && p < |s.procs| && j < |s.procs| && s.procs[p].pc.RelUnlock?
    ensures !Committed(s.procs[j], s.procs[p].pc.l)
  {
    var l := s.procs[p].pc.l;
    assert TestOk(s, s.procs[p].pc);
    assert L(l) in Held(s.procs[p].pc, p);
    hide SpinsOk, RunsOk, Committed, WillWake, Held;
    if Committed(s.procs[j], l) {
      assert WakerComing(s, l, j);
      var w :| 0 <= w < |s.procs| && w != j && WillWake(s.procs[w].pc, l, j);
      WakerInside(s.procs[w].pc, w, l, j);
      OneInside(s, p, w, L(l));
    }
  }

  lemma DisciplineHolds(s: State, c: nat, ch: Choice)
    requires Inv(s) && c < |s.cpus| && s.cpus[c].Busy?
    ensures DisciplineAt(s, c, ch)
  {
    var p := s.cpus[c].p;
    var v := Sees(s, s.procs[p].pc);
    assert LocksOf(s, c) == Held(s.procs[p].pc, p);
    if Code(s.procs[p], p, v, ch).Some? {
      LockTable(s.procs[p], p, v, ch);
      var e := Code(s.procs[p], p, v, ch).value.effect;
      assert e.Leave? ==> s.procs[p].state != RUNNING;
    }
  }

  /** Every interleaving from the start keeps all of it. */
  lemma SleepLocksAreSafe(s: State, steps: seq<(nat, Choice)>)
    requires Initial(s) && RunFrom(s, steps).Some?
    ensures var t := RunFrom(s, steps).value;
            NoLostWakeup(t) && OneHolder(t) && WakeupReachesAll(t) && SpinDiscipline(t)
  {
    InitialIsOk(s);
    RunKeeps(s, steps);
    var t := RunFrom(s, steps).value;
    hide Code, Next, SpinsOk, ProcsOk, SleepsOk, Committed;
    forall j, l: nat | 0 <= j < |t.procs| && t.procs[j].state == SLEEPING && t.procs[j].chan == Some(l)
                       && L(l) !in t.owner
      ensures l < |t.locks| && t.locks[l].locked && exists p :: 0 <= p < |t.procs| && l in t.procs[p].held
    {
      SleeperWaitsForHolder(t, j, l);
    }
    forall p: nat, l: nat | p < |t.procs| && l in t.procs[p].held
      ensures Owns(t.procs[p], l) && l < |t.locks| && t.locks[l] == SLock(true, t.procs[p].pid)
    {
      assert Owns(t.procs[p], l);
    }
    forall p, j | 0 <= p < |t.procs| && 0 <= j < |t.procs| && t.procs[p].pc.RelUnlock?
      ensures !Committed(t.procs[j], t.procs[p].pc.l)
    {
      WakeupLeavesNone(t, p, j);
    }
    forall c, ch | 0 <= c < |t.cpus| && t.cpus[c].Busy? ensures DisciplineAt(t, c, ch) { DisciplineHolds(t, c, ch); }
  }
}
