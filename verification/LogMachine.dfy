/** Every interleaving of file system operations, group commits, crashes and recoveries over the
    log of kernel/log.c, one critical section or one block write at a time. */
module LogMachine {
  import opened Blocks
  import opened LogSpec
  import opened Seqs

  datatype Event = Began(op: nat) | Wrote(op: nat, b: nat, data: Block) | Ended(op: nat)

  datatype Phase =
    | Running
    | Committing(base: Disk, k: nat)   // k writes of commit() done, from the disk `base`
    | Recovering(base: Disk, k: nat)   // k writes of recover_from_log() done, from the disk `base`

  datatype State = State(
    disk: Disk,
    view: Disk,                   // the buffer cache as a plain map
    blocks: seq<nat>,             // lh.block[..lh.n]
    ops: map<nat, set<nat>>,      // outstanding operations and the blocks each has logged
    phase: Phase,
    pending: seq<Event>,          // what happened since the last commit point
    groups: seq<seq<Event>>)      // the commit groups that reached their commit point

  datatype Step = BeginOp(op: nat) | LogWrite(op: nat, b: nat, data: Block) | EndOp(op: nat)
    | CommitWrite | CommitDone | Crash | RecoverWrite | RecoverDone

  /** log_write panics here whatever the block is. */
  predicate LogFull(l: Layout, s: State)
  {
    |s.blocks| >= LOGSIZE || |s.blocks| >= l.size - 1
  }

  /** An operation stays within the MAXOPBLOCKS distinct blocks it announced. */
  predicate WithinBudget(s: State, op: nat, b: nat)
  {
    op in s.ops && |s.ops[op] + {b}| <= MAXOPBLOCKS
  }

  predicate CommitFinished(s: State)
  {
    s.phase.Committing? && s.phase.k == if s.blocks == [] then 0 else 2 * |s.blocks| + 2
  }

  ghost predicate Enabled(l: Layout, s: State, step: Step)
    requires StructureOk(l, s)
  {
    match step
    case BeginOp(op) =>
      s.phase.Running? && op !in s.ops && |s.blocks| + (|s.ops| + 1) * MAXOPBLOCKS <= LOGSIZE
    case LogWrite(op, b, data) =>
      s.phase.Running? && WithinBudget(s, op, b) && b in s.disk && !l.InLog(b) && b < WORD_LIMIT && !LogFull(l, s)
    case EndOp(op) => s.phase.Running? && op in s.ops
    case CommitWrite => s.phase.Committing? && s.blocks != [] && s.phase.k < 2 * |s.blocks| + 2
    case CommitDone => CommitFinished(s)
    case Crash => true
    case RecoverWrite => s.phase.Recovering? && s.phase.k <= |Header(s.phase.base[l.start])|
    case RecoverDone => s.phase.Recovering? && s.phase.k == |Header(s.phase.base[l.start])| + 1
  }

  /** What each critical section of log.c, each block write and each crash does. */
  ghost function Do(l: Layout, s: State, step: Step): (r: State)
    requires StructureOk(l, s) && Enabled(l, s, step)
  {
    match step
    case BeginOp(op) => s.(ops := s.ops[op := {}], pending := s.pending + [Began(op)])
    case LogWrite(op, b, data) =>
      s.(view := s.view[b := data],
         blocks := if b in s.blocks then s.blocks else s.blocks + [b],
         ops := s.ops[op := s.ops[op] + {b}],
         pending := s.pending + [Wrote(op, b, data)])
    case EndOp(op) =>
      var ops := s.ops - {op};
      s.(ops := ops,
         phase := if ops == map[] then Committing(s.disk, 0) else Running,
         pending := s.pending + [Ended(op)])
    case CommitWrite =>
      var k := s.phase.k + 1;
      var header := k == |s.blocks| + 1;
      s.(disk := CommitDisk(l, s.phase.base, s.view, s.blocks, k),
         phase := Committing(s.phase.base, k),
         pending := if header then [] else s.pending,
         groups := if header then s.groups + [s.pending] else s.groups)
    case CommitDone =>
      s.(blocks := [], phase := Running, pending := [],
         groups := if s.blocks == [] then s.groups + [s.pending] else s.groups)
    case Crash =>
      State(s.disk, s.disk, [], map[], Recovering(s.disk, 0), [], s.groups)
    case RecoverWrite =>
      s.(disk := RecoveryDisk(l, s.phase.base, s.phase.k + 1), phase := Recovering(s.phase.base, s.phase.k + 1))
    case RecoverDone =>
      s.(view := s.disk, phase := Running)
  }

  // What a history of events means.

  /** The operations begun and not yet ended, with the blocks each has written. */
  function Open(events: seq<Event>): (m: map<nat, set<nat>>)
  {
    if events == [] then map[]
    else
      var m := Open(events[..|events| - 1]);
      match events[|events| - 1]
      case Began(op) => m[op := {}]
      case Wrote(op, b, _) => if op in m then m[op := m[op] + {b}] else m
      case Ended(op) => m - {op}
  }

  /** Whole operations only: every event belongs to an operation that begins and ends here. */
  predicate Bracketed(events: seq<Event>)
  {
    events == [] ||
    var m := Open(events[..|events| - 1]);
    Bracketed(events[..|events| - 1]) &&
    match events[|events| - 1]
    case Began(op) => op !in m
    case Wrote(op, _, _) => op in m
    case Ended(op) => op in m
  }

  predicate Whole(events: seq<Event>) { Bracketed(events) && Open(events) == map[] }

  function Replay(home: Disk, events: seq<Event>): (r: Disk)
  {
    if events == [] then home
    else
      var r := Replay(home, events[..|events| - 1]);
      match events[|events| - 1]
      case Wrote(_, b, data) => r[b := data]
      case _ => r
  }

  function ReplayGroups(home: Disk, groups: seq<seq<Event>>): (r: Disk)
  {
    if groups == [] then home
    else Replay(ReplayGroups(home, groups[..|groups| - 1]), groups[|groups| - 1])
  }

  lemma Snoc(home: Disk, events: seq<Event>, e: Event)
    ensures (events + [e])[..|events|] == events
    ensures Replay(home, events + [e])
            == if e.Wrote? then Replay(home, events)[e.b := e.data] else Replay(home, events)
    ensures Open(events + [e])
            == match e
               case Began(op) => Open(events)[op := {}]
               case Wrote(op, b, _) =>
                 if op in Open(events) then Open(events)[op := Open(events)[op] + {b}] else Open(events)
               case Ended(op) => Open(events) - {op}
  {
    assert (events + [e])[..|events|] == events;
  }

  // The reservation.

  /** Blocks the outstanding operations may still add, MAXOPBLOCKS each. */
  ghost function Unspent(ops: map<nat, set<nat>>): (n: int)
  {
    if ops == map[] then 0
    else
      var op :| op in ops;
      MAXOPBLOCKS - |ops[op]| + Unspent(ops - {op})
  }

  lemma {:induction false} UnspentWithout(ops: map<nat, set<nat>>, op: nat)
    requires op in ops
    ensures Unspent(ops) == MAXOPBLOCKS - |ops[op]| + Unspent(ops - {op})
    decreases |ops|
  {
    var p :| p in ops && Unspent(ops) == MAXOPBLOCKS - |ops[p]| + Unspent(ops - {p});
    if p != op {
      UnspentWithout(ops - {p}, op);
      UnspentWithout(ops - {op}, p);
      assert ops - {p} - {op} == ops - {op} - {p};
    }
  }

  lemma {:induction false} UnspentBounds(ops: map<nat, set<nat>>)
    requires forall op :: op in ops ==> |ops[op]| <= MAXOPBLOCKS
    ensures 0 <= Unspent(ops) <= |ops| * MAXOPBLOCKS
    decreases |ops|
  {
    if ops != map[] {
      var op :| op in ops;
      UnspentWithout(ops, op);
      UnspentBounds(ops - {op});
    }
  }

  lemma UnspentUpdate(ops: map<nat, set<nat>>, op: nat, bs: set<nat>)
    ensures Unspent(ops[op := bs]) == MAXOPBLOCKS - |bs| + Unspent(ops - {op})
  {
    var m := ops[op := bs];
    UnspentWithout(m, op);
    assert m - {op} == ops - {op};
  }

  // The invariant.

  ghost predicate StructureOk(l: Layout, s: State)
  {
    && s.disk.Keys == s.view.Keys
    && Loggable(l, s.disk, s.blocks)
    && Recoverable(l, s.disk)
    && match s.phase
       case Running => true
       case Committing(base, k) => base.Keys == s.disk.Keys && k <= 2 * |s.blocks| + 2
       case Recovering(base, k) => Recoverable(l, base) && k <= |Header(base[l.start])| + 1
  }

  /** Space: what is logged plus what may still be logged fits the log. */
  ghost predicate SpaceOk(blocks: seq<nat>, ops: map<nat, set<nat>>)
  {
    && (forall op :: op in ops ==> |ops[op]| <= MAXOPBLOCKS && forall b :: b in ops[op] ==> b in blocks)
    && |blocks| + Unspent(ops) <= LOGSIZE
  }

  lemma SpaceBegin(blocks: seq<nat>, ops: map<nat, set<nat>>, op: nat)
    requires SpaceOk(blocks, ops) && op !in ops && |blocks| + (|ops| + 1) * MAXOPBLOCKS <= LOGSIZE
    ensures SpaceOk(blocks, ops[op := {}])
  {
    UnspentBounds(ops);
    UnspentUpdate(ops, op, {});
    assert ops - {op} == ops;
  }

  /** A block that is new to the log is new to its operation, which pays for it. */
  lemma SpaceWrite(blocks: seq<nat>, ops: map<nat, set<nat>>, op: nat, b: nat)
    requires SpaceOk(blocks, ops) && op in ops && |ops[op] + {b}| <= MAXOPBLOCKS
    ensures SpaceOk(if b in blocks then blocks else blocks + [b], ops[op := ops[op] + {b}])
  {
    UnspentUpdate(ops, op, ops[op] + {b});
    UnspentWithout(ops, op);
    if b in ops[op] { assert ops[op] + {b} == ops[op]; }
  }

  lemma SpaceEnd(blocks: seq<nat>, ops: map<nat, set<nat>>, op: nat)
    requires SpaceOk(blocks, ops) && op in ops
    ensures SpaceOk(blocks, ops - {op})
  {
    UnspentWithout(ops, op);
  }

  ghost predicate RunningOk(l: Layout, s: State)
    requires s.disk.Keys == s.view.Keys && l.start in s.disk
  {
    && Word(s.disk[l.start], 0) == 0
    && s.ops == Open(s.pending) && Bracketed(s.pending)
    && Home(l, s.view) == Replay(Home(l, s.disk), s.pending)
    && (forall b :: b in s.disk && !l.InLog(b) && b !in s.blocks ==> s.view[b] == s.disk[b])
  }

  ghost predicate CommittingOk(l: Layout, s: State, base: Disk, k: nat)
    requires base.Keys == s.view.Keys == s.disk.Keys && Loggable(l, base, s.blocks) && k <= 2 * |s.blocks| + 2
  {
    && Word(base[l.start], 0) == 0 && s.ops == map[]
    && s.disk == CommitDisk(l, base, s.view, s.blocks, k)
    && (forall b :: b in s.disk && !l.InLog(b) && b !in s.blocks ==> s.view[b] == base[b])
    && (if k <= |s.blocks| then Whole(s.pending) && Home(l, s.view) == Replay(Home(l, base), s.pending)
        else s.pending == [])
  }

  /** The disk always recovers to the effect of the committed groups, which are whole. */
  ghost predicate DurableOk(l: Layout, s: State, home: Disk)
    requires Recoverable(l, s.disk)
  {
    && Recovered(l, s.disk) == ReplayGroups(home, s.groups)
    && forall i :: 0 <= i < |s.groups| ==> Whole(s.groups[i])
  }

  ghost predicate Inv(l: Layout, s: State, home: Disk)
  {
    && StructureOk(l, s)
    && SpaceOk(s.blocks, s.ops)
    && DurableOk(l, s, home)
    && match s.phase
       case Running => RunningOk(l, s)
       case Committing(base, k) => Loggable(l, base, s.blocks) && CommittingOk(l, s, base, k)
       case Recovering(base, k) =>
         s.disk == RecoveryDisk(l, base, k) && s.blocks == [] && s.ops == map[] && s.pending == []
  }

  lemma BeginStep(l: Layout, s: State, home: Disk, op: nat)
    requires Inv(l, s, home) && Enabled(l, s, BeginOp(op))
    ensures Inv(l, Do(l, s, BeginOp(op)), home)
  {
    hide Loggable, Recoverable, Recovered, Word, Header, ReplayGroups, SpaceOk, Home, Replay, Open;
    Snoc(Home(l, s.disk), s.pending, Began(op));
    SpaceBegin(s.blocks, s.ops, op);
  }

  lemma WriteStep(l: Layout, s: State, home: Disk, op: nat, b: nat, data: Block)
    requires Inv(l, s, home) && Enabled(l, s, LogWrite(op, b, data))
    ensures Inv(l, Do(l, s, LogWrite(op, b, data)), home)
  {
    hide Loggable, Recoverable, Recovered, Word, Header, ReplayGroups, SpaceOk, Replay, Open, Home;
    if b !in s.blocks { LoggableAppend(l, s.disk, s.blocks, b); }
    SpaceWrite(s.blocks, s.ops, op, b);
    Snoc(Home(l, s.disk), s.pending, Wrote(op, b, data));
    HomeStore(l, s.view, b, data);
  }

  lemma HomeStore(l: Layout, d: Disk, b: nat, data: Block)
    requires !l.InLog(b)
    ensures Home(l, d[b := data]) == Home(l, d)[b := data]
  {
  }

  lemma EndStep(l: Layout, s: State, home: Disk, op: nat)
    requires Inv(l, s, home) && Enabled(l, s, EndOp(op))
    ensures Inv(l, Do(l, s, EndOp(op)), home)
  {
    hide Loggable, Recoverable, Recovered, Word, Header, ReplayGroups, SpaceOk, Home, Replay, Open;
    Snoc(Home(l, s.disk), s.pending, Ended(op));
    SpaceEnd(s.blocks, s.ops, op);
  }

  /** The writes of a commit: the header write is the one that makes the group durable. */
  lemma CommitWriteStep(l: Layout, s: State, home: Disk)
    requires Inv(l, s, home) && Enabled(l, s, CommitWrite)
    ensures Inv(l, Do(l, s, CommitWrite), home)
  {
    hide Loggable, Recoverable, Recovered, Word, Header, CommitDisk, Home, SpaceOk, Replay, Whole;
    var base, k, blocks := s.phase.base, s.phase.k, s.blocks;
    CommitMeaning(l, base, s.view, blocks, k);
    CommitMeaning(l, base, s.view, blocks, k + 1);
    assert (s.groups + [s.pending])[..|s.groups|] == s.groups;
  }

  /** What a commit in progress recovers to, when only the logged blocks differ from the disk. */
  lemma CommitMeaning(l: Layout, base: Disk, view: Disk, blocks: seq<nat>, k: nat)
    requires Loggable(l, base, blocks) && base.Keys == view.Keys && Word(base[l.start], 0) == 0
    requires k <= 2 * |blocks| + 2
    requires forall b :: b in base && !l.InLog(b) && b !in blocks ==> view[b] == base[b]
    ensures var d := CommitDisk(l, base, view, blocks, k);
            && d.Keys == base.Keys && Loggable(l, d, blocks) && Recoverable(l, d)
            && Recovered(l, d) == (if k <= |blocks| then Home(l, base) else Home(l, view))
            && (k == 2 * |blocks| + 2 ==> Word(d[l.start], 0) == 0 && Home(l, d) == Home(l, view))
  {
    CommitKeys(l, base, view, blocks, k);
    LoggableKeys(l, base, CommitDisk(l, base, view, blocks, k), blocks);
    hide Loggable, Recoverable, Recovered, Word, Header, CommitDisk;
    CommitIsAtomic(l, base, view, blocks, k, []);
    assert Update(Home(l, base), view, blocks) == Home(l, view);
    if k == 2 * |blocks| + 2 { CommitCompletes(l, base, view, blocks); }
  }

  lemma CommitKeys(l: Layout, d: Disk, view: Disk, blocks: seq<nat>, k: nat)
    requires Loggable(l, d, blocks) && d.Keys == view.Keys && k <= 2 * |blocks| + 2
    ensures CommitDisk(l, d, view, blocks, k).Keys == d.Keys
  {
    if k <= |blocks| {
      LoggedKeys(l, d, view, blocks, k);
    } else if k <= 2 * |blocks| + 1 {
      InstalledKeys(l, Committed(l, d, view, blocks), blocks, k - |blocks| - 1);
    } else {
      CommitCompletes(l, d, view, blocks);
    }
  }

  lemma SpaceOf(ops: map<nat, set<nat>>)
    requires ops == map[]
    ensures SpaceOk([], ops)
  {
  }

  lemma CommitNone(l: Layout, d: Disk, view: Disk)
    requires Loggable(l, d, []) && d.Keys == view.Keys
    ensures CommitDisk(l, d, view, [], 0) == d
  {
  }

  lemma GroupAppended(groups: seq<seq<Event>>, g: seq<Event>)
    requires (forall i :: 0 <= i < |groups| ==> Whole(groups[i])) && Whole(g)
    ensures forall i :: 0 <= i < |groups + [g]| ==> Whole((groups + [g])[i])
  {
    hide Whole;
  }

  lemma ReplayGroupsLast(home: Disk, groups: seq<seq<Event>>, g: seq<Event>)
    ensures ReplayGroups(home, groups + [g]) == Replay(ReplayGroups(home, groups), g)
  {
    assert (groups + [g])[..|groups|] == groups;
  }

  lemma ReplayNone(home: Disk)
    ensures Replay(home, []) == home && Open([]) == map[] && Bracketed([])
  {
  }

  lemma HomeSame(l: Layout, d: Disk, e: Disk)
    requires d.Keys == e.Keys && Home(l, d) == Home(l, e)
    ensures forall b :: b in d && !l.InLog(b) ==> d[b] == e[b]
  {
    forall b | b in d && !l.InLog(b) ensures d[b] == e[b] { assert Home(l, d)[b] == d[b] && Home(l, e)[b] == e[b]; }
  }

  lemma CommitDoneStep(l: Layout, s: State, home: Disk)
    requires Inv(l, s, home) && Enabled(l, s, CommitDone)
    ensures Inv(l, Do(l, s, CommitDone), home)
  {
    hide Recoverable, Recovered, Word, Header, Whole, Loggable, CommitDisk, Home, SpaceOk, Replay, ReplayGroups;
    var base, blocks := s.phase.base, s.blocks;
    LoggableKeys(l, s.disk, s.disk, blocks);
    CommitMeaning(l, base, s.view, blocks, s.phase.k);
    SpaceOf(s.ops);
    if blocks == [] {
      CommitNone(l, base, s.view);
      GroupAppended(s.groups, s.pending);
      SameHome(l, s.disk, s.view);
      ReplayGroupsLast(home, s.groups, s.pending);
    }
    ReplayNone(Home(l, s.disk));
    HomeSame(l, s.disk, s.view);
  }

  lemma SameHome(l: Layout, d: Disk, e: Disk)
    requires d.Keys == e.Keys && forall b :: b in d && !l.InLog(b) ==> d[b] == e[b]
    ensures Home(l, d) == Home(l, e)
  {
  }

  lemma CrashStep(l: Layout, s: State, home: Disk)
    requires Inv(l, s, home)
    ensures Inv(l, Do(l, s, Crash), home)
  {
    LoggableKeys(l, s.disk, s.disk, s.blocks);
    hide Recovered, Word, Header, Loggable, CommitDisk, Home, Replay;
    assert SpaceOk([], map[]);
  }

  lemma RecoverStep(l: Layout, s: State, home: Disk, step: Step)
    requires Inv(l, s, home) && Enabled(l, s, step) && (step.RecoverWrite? || step.RecoverDone?)
    ensures Inv(l, Do(l, s, step), home)
  {
    hide Recovered, Word, RecoveryDisk, Loggable, Home, SpaceOk;
    var base, k := s.phase.base, s.phase.k;
    RecoveryKeepsMeaning(l, base, k);
    if step.RecoverWrite? {
      RecoveryKeepsMeaning(l, base, k + 1);
      LoggableKeys(l, base, RecoveryDisk(l, base, k + 1), Header(base[l.start]));
    }
  }

  /** Every step keeps the invariant. */
  lemma StepSafe(l: Layout, s: State, home: Disk, step: Step)
    requires Inv(l, s, home) && Enabled(l, s, step)
    ensures Inv(l, Do(l, s, step), home)
    ensures s.groups <= Do(l, s, step).groups
  {
    match step
    case BeginOp(op) => BeginStep(l, s, home, op);
    case LogWrite(op, b, data) => WriteStep(l, s, home, op, b, data);
    case EndOp(op) => EndStep(l, s, home, op);
    case CommitWrite => CommitWriteStep(l, s, home);
    case CommitDone => CommitDoneStep(l, s, home);
    case Crash => CrashStep(l, s, home);
    case RecoverWrite => RecoverStep(l, s, home, step);
    case RecoverDone => RecoverStep(l, s, home, step);
  }

  // Runs.

  /** A machine that has just completed a recovery. */
  ghost predicate Booted(l: Layout, s: State)
  {
    && Recoverable(l, s.disk) && Word(s.disk[l.start], 0) == 0
    && s == State(s.disk, s.disk, [], map[], Running, [], [])
  }

  ghost predicate Next(l: Layout, s: State, step: Step, t: State)
  {
    StructureOk(l, s) && Enabled(l, s, step) && t == Do(l, s, step)
  }

  ghost predicate Run(l: Layout, states: seq<State>, steps: seq<Step>)
  {
    && |states| == |steps| + 1
    && Booted(l, states[0])
    && forall i :: 0 <= i < |steps| ==> Next(l, states[i], steps[i], states[i + 1])
  }

  lemma BootedInv(l: Layout, s: State)
    requires Booted(l, s)
    ensures Inv(l, s, Home(l, s.disk))
  {
    LoggableKeys(l, s.disk, s.disk, Header(s.disk[l.start]));
    hide Loggable;
    RecoveredEmpty(l, s.disk);
    assert SpaceOk([], map[]);
  }

  /** In every run the invariant holds at every state, and committed groups are never lost. */
  lemma {:induction false} RunSafe(l: Layout, states: seq<State>, steps: seq<Step>, i: nat, j: nat)
    requires Run(l, states, steps) && i <= j < |states|
    ensures Inv(l, states[j], Home(l, states[0].disk))
    ensures states[i].groups <= states[j].groups
  {
    hide Inv, StructureOk, Do, Home, Booted;
    if j > 0 { assert Next(l, states[j - 1], steps[j - 1], states[j - 1 + 1]); }
    if j == 0 {
      BootedInv(l, states[0]);
    } else if i < j {
      RunSafe(l, states, steps, i, j - 1);
      StepSafe(l, states[j - 1], Home(l, states[0].disk), steps[j - 1]);
    } else {
      RunSafe(l, states, steps, j - 1, j - 1);
      StepSafe(l, states[j - 1], Home(l, states[0].disk), steps[j - 1]);
    }
  }

  /** Over whole runs with any number of crashes: at every moment, whatever is on the disk
      recovers to the initial home blocks with a sequence of commit groups applied, each group
      consisting of whole operations, and no group applied at an earlier moment is missing. */
  lemma RecoveredIsWholeGroups(l: Layout, states: seq<State>, steps: seq<Step>, i: nat, j: nat)
    requires Run(l, states, steps) && i <= j < |states|
    ensures Recoverable(l, states[j].disk)
    ensures Recovered(l, states[j].disk) == ReplayGroups(Home(l, states[0].disk), states[j].groups)
    ensures forall g :: g in states[j].groups ==> Whole(g)
    ensures states[i].groups <= states[j].groups
  {
    RunSafe(l, states, steps, i, j);
  }

  /** While a commit is in progress no operation is outstanding, so the panic of end_op is
      unreachable; the logged blocks are distinct; and the log holds what is logged plus
      everything the outstanding operations may still log. */
  lemma LogProtocol(l: Layout, states: seq<State>, steps: seq<Step>, j: nat)
    requires Run(l, states, steps) && j < |states|
    ensures states[j].phase.Committing? ==> states[j].ops == map[]
    ensures Distinct(states[j].blocks)
    ensures |states[j].blocks| + Unspent(states[j].ops) <= LOGSIZE && 0 <= Unspent(states[j].ops)
  {
    RunSafe(l, states, steps, j, j);
    UnspentBounds(states[j].ops);
  }

  /** When the log has LOGSIZE data slots, an operation within its budget meets the "too big a
      transaction" panic exactly when the log is completely full; the block is then one that
      is already logged, which log absorption would have had room for. */
  lemma PanicExactlyWhenFull(l: Layout, states: seq<State>, steps: seq<Step>, j: nat, op: nat, b: nat)
    requires Run(l, states, steps) && j < |states|
    requires states[j].phase.Running? && WithinBudget(states[j], op, b) && l.size > LOGSIZE
    ensures LogFull(l, states[j]) <==> |states[j].blocks| == LOGSIZE
    ensures LogFull(l, states[j]) ==> b in states[j].blocks
  {
    var s := states[j];
    RunSafe(l, states, steps, j, j);
    if b !in s.blocks {
      assert b !in s.ops[op];
      UnspentWithout(s.ops, op);
      UnspentBounds(s.ops - {op});
    }
  }

  // begin_op reserves LOGSIZE blocks, but a log of `size` blocks has only size - 1 data slots.

  /** How many of the first c blocks operation op (of three) has logged. */
  function Share(c: nat, op: nat): (n: nat)
  {
    if c <= 10 * op then 0 else if c >= 10 * op + 10 then 10 else c - 10 * op
  }

  /** h, h + 1, ..., h + c - 1 */
  function Fresh(h: nat, c: nat): (r: seq<nat>)
    ensures |r| == c && forall b :: b in r ==> h <= b < h + c
  {
    if c == 0 then [] else Fresh(h, c - 1) + [h + c - 1]
  }

  ghost predicate Filled(l: Layout, s0: State, states: seq<State>, steps: seq<Step>, h: nat, c: nat)
  {
    && Run(l, states, steps) && states[0] == s0
    && FilledState(states[|steps|], s0.disk, h, c)
  }

  ghost predicate FilledState(s: State, d: Disk, h: nat, c: nat)
  {
    && s.phase.Running? && s.disk == d && s.blocks == Fresh(h, c) && s.ops.Keys == {0, 1, 2}
    && forall q :: q in s.ops ==> |s.ops[q]| == Share(c, q) && forall b :: b in s.ops[q] ==> b < h + c
  }

  ghost predicate HomeRange(l: Layout, d: Disk, h: nat)
  {
    forall b :: h <= b < h + LOGSIZE ==> b in d && !l.InLog(b) && b < WORD_LIMIT
  }

  lemma RunAppend(l: Layout, states: seq<State>, steps: seq<Step>, step: Step, t: State)
    requires Run(l, states, steps) && Next(l, states[|steps|], step, t)
    ensures Run(l, states + [t], steps + [step])
  {
    hide Next, Booted;
    var ss, us := states + [t], steps + [step];
    forall i | 0 <= i < |us| ensures Next(l, ss[i], us[i], ss[i + 1]) {
      if i < |steps| { assert Next(l, states[i], steps[i], states[i + 1]); }
    }
  }

  lemma Extend(l: Layout, states: seq<State>, steps: seq<Step>, step: Step)
    returns (states': seq<State>, steps': seq<Step>)
    requires Run(l, states, steps) && |states| == |steps| + 1
    requires StructureOk(l, states[|steps|]) && Enabled(l, states[|steps|], step)
    ensures Run(l, states', steps') && states'[0] == states[0] && |steps'| == |steps| + 1
    ensures states'[|steps'|] == Do(l, states[|steps|], step)
    ensures StructureOk(l, states'[|steps'|])
  {
    hide Do, Enabled, StructureOk, Booted, Run;
    var t := Do(l, states[|steps|], step);
    assert Next(l, states[|steps|], step, t);
    hide Next;
    RunAppend(l, states, steps, step, t);
    states', steps' := states + [t], steps + [step];
    RunStructure(l, states', steps');
  }

  lemma RunStructure(l: Layout, states: seq<State>, steps: seq<Step>)
    requires Run(l, states, steps)
    ensures StructureOk(l, states[|steps|])
  {
    RunSafe(l, states, steps, |steps|, |steps|);
  }

  lemma FillStart(l: Layout, s0: State, h: nat) returns (states: seq<State>, steps: seq<Step>)
    requires Booted(l, s0)
    ensures Filled(l, s0, states, steps, h, 0) && StructureOk(l, states[|steps|])
  {
    BootedInv(l, s0);
    states, steps := [s0], [];
    hide Booted, Recoverable, Loggable, Next;
    states, steps := Extend(l, states, steps, BeginOp(0));
    states, steps := Extend(l, states, steps, BeginOp(1));
    states, steps := Extend(l, states, steps, BeginOp(2));
  }

  lemma ShareNext(c: nat, op: nat, q: nat)
    requires 0 < c && 10 * op < c <= 10 * op + 10
    ensures Share(c, q) == if q == op then Share(c - 1, q) + 1 else Share(c - 1, q)
    ensures Share(c, op) == c - 10 * op
  {
  }

  lemma FreshNext(h: nat, c: nat)
    requires 0 < c
    ensures Fresh(h, c) == Fresh(h, c - 1) + [h + c - 1] && h + c - 1 !in Fresh(h, c - 1)
  {
  }

  lemma FillBudget(s: State, h: nat, c: nat, op: nat)
    requires 0 < c <= LOGSIZE && 10 * op < c <= 10 * op + 10 && FilledState(s, s.disk, h, c - 1)
    ensures op in s.ops && h + c - 1 !in s.ops[op] && |s.ops[op] + {h + c - 1}| == Share(c, op) <= MAXOPBLOCKS
  {
    hide Fresh;
    ShareNext(c, op, op);
    assert op in {0, 1, 2};
  }

  lemma FillOps(s: State, h: nat, c: nat, op: nat)
    requires 0 < c <= LOGSIZE && 10 * op < c <= 10 * op + 10 && FilledState(s, s.disk, h, c - 1)
    ensures op in s.ops && s.ops[op := s.ops[op] + {h + c - 1}].Keys == {0, 1, 2}
    ensures var ops := s.ops[op := s.ops[op] + {h + c - 1}];
            forall q :: q in ops ==> |ops[q]| == Share(c, q) && forall b :: b in ops[q] ==> b < h + c
  {
    hide Fresh, Share;
    FillBudget(s, h, c, op);
    var ops := s.ops[op := s.ops[op] + {h + c - 1}];
    forall q | q in ops ensures |ops[q]| == Share(c, q) && forall b :: b in ops[q] ==> b < h + c {
      ShareNext(c, op, q);
    }
  }

  lemma FillWrite(l: Layout, s: State, h: nat, c: nat, op: nat)
    requires HomeRange(l, s.disk, h) && 0 < c <= LOGSIZE && c < l.size && 10 * op < c <= 10 * op + 10
    requires StructureOk(l, s) && FilledState(s, s.disk, h, c - 1)
    ensures Enabled(l, s, LogWrite(op, h + c - 1, ZeroBlock()))
    ensures FilledState(Do(l, s, LogWrite(op, h + c - 1, ZeroBlock())), s.disk, h, c)
  {
    hide StructureOk, Fresh;
    FillBudget(s, h, c, op);
    assert h + c - 1 in s.disk && !l.InLog(h + c - 1);
    FreshNext(h, c);
    FillOps(s, h, c, op);
  }

  lemma FillStep(l: Layout, s0: State, states: seq<State>, steps: seq<Step>, h: nat, c: nat)
    returns (states': seq<State>, steps': seq<Step>)
    requires HomeRange(l, s0.disk, h) && 0 < c <= LOGSIZE && c < l.size
    requires Filled(l, s0, states, steps, h, c - 1) && StructureOk(l, states[|steps|])
    ensures Filled(l, s0, states', steps', h, c) && StructureOk(l, states'[|steps'|])
  {
    var op := (c - 1) / 10;
    FillWrite(l, states[|steps|], h, c, op);
    states', steps' := Extend(l, states, steps, LogWrite(op, h + c - 1, ZeroBlock()));
  }

  /** Three operations begin and together log c fresh blocks, ten each at most. */
  lemma {:induction false} Fill(l: Layout, s0: State, h: nat, c: nat) returns (states: seq<State>, steps: seq<Step>)
    requires Booted(l, s0) && HomeRange(l, s0.disk, h) && c <= LOGSIZE && c < l.size
    ensures Filled(l, s0, states, steps, h, c) && StructureOk(l, states[|steps|])
  {
    if c == 0 {
      states, steps := FillStart(l, s0, h);
    } else {
      states, steps := Fill(l, s0, h, c - 1);
      states, steps := FillStep(l, s0, states, steps, h, c);
    }
  }

  /** log_write panics on a block that its operation may still log and that is not in the log yet. */
  ghost predicate FreshPanic(l: Layout, s: State, op: nat, b: nat)
  {
    s.phase.Running? && WithinBudget(s, op, b) && b in s.disk && !l.InLog(b) && b !in s.blocks && LogFull(l, s)
  }

  /** log_write panics on a block that its operation has logged already. */
  ghost predicate AbsorbPanic(l: Layout, s: State, op: nat, b: nat)
  {
    s.phase.Running? && op in s.ops && b in s.ops[op] && b in s.blocks && LogFull(l, s)
  }

  /** A run from s0 that ends where log_write panics on a fresh block. */
  ghost predicate PanicRun(l: Layout, s0: State, states: seq<State>, steps: seq<Step>, op: nat, b: nat)
  {
    Run(l, states, steps) && states[0] == s0 && FreshPanic(l, states[|steps|], op, b)
  }

  /** With no more than LOGSIZE log blocks in all, as mkfs lays the disk out, a run exists in
      which log_write panics on a fresh block of an operation that is within its budget. */
  lemma ReservationCanPanic(l: Layout, s0: State, h: nat)
    returns (states: seq<State>, steps: seq<Step>, op: nat, b: nat)
    requires Booted(l, s0) && HomeRange(l, s0.disk, h) && l.size <= LOGSIZE
    ensures PanicRun(l, s0, states, steps, op, b)
  {
    hide Next, StructureOk, Fresh;
    assert l.size >= 1;
    hide Booted;
    var c := l.size - 1;
    states, steps := Fill(l, s0, h, c);
    var s := states[|steps|];
    op, b := c / 10, h + c;
    assert c == 10 * op + c % 10;
    assert op in s.ops.Keys && b !in s.ops[op];
  }

  /** The reservation of begin_op is enough exactly when the log has LOGSIZE data blocks: then, and
      only then, no run whatever ends with a panic on a fresh block of an operation within its budget. */
  lemma ReservationHoldsExactlyWhen(l: Layout, s0: State, h: nat)
    requires Booted(l, s0) && HomeRange(l, s0.disk, h)
    ensures l.size > LOGSIZE <==> forall states, steps, op, b :: !PanicRun(l, s0, states, steps, op, b)
  {
    hide Next, Booted, HomeRange, Run, FreshPanic;
    if l.size > LOGSIZE {
      forall states, steps, op, b ensures !PanicRun(l, s0, states, steps, op, b) {
        if PanicRun(l, s0, states, steps, op, b) { NoFreshPanic(l, states, steps, op, b); }
      }
    } else {
      var states, steps, op, b := ReservationCanPanic(l, s0, h);
    }
  }

  lemma NoFreshPanic(l: Layout, states: seq<State>, steps: seq<Step>, op: nat, b: nat)
    requires Run(l, states, steps) && l.size > LOGSIZE
    ensures !FreshPanic(l, states[|steps|], op, b)
  {
    hide Next, Booted;
    var s := states[|steps|];
    if FreshPanic(l, s, op, b) { PanicExactlyWhenFull(l, states, steps, |steps|, op, b); }
  }

  /** Even with LOGSIZE data blocks the panic is reachable: three operations that each log ten blocks fill
      the log, and then log_write of any block already in it, which takes no space, panics. */
  lemma AbsorptionCanPanic(l: Layout, s0: State, h: nat) returns (states: seq<State>, steps: seq<Step>, op: nat, b: nat)
    requires Booted(l, s0) && HomeRange(l, s0.disk, h) && l.size > LOGSIZE
    ensures Run(l, states, steps) && states[0] == s0 && AbsorbPanic(l, states[|steps|], op, b)
  {
    hide Next, Booted, StructureOk, Fresh;
    states, steps := Fill(l, s0, h, LOGSIZE);
    var s := states[|steps|];
    op := 0;
    assert 0 in s.ops.Keys && |s.ops[0]| == 10;
    assert s.ops[0] != {};
    b :| b in s.ops[0];
    RunSafe(l, states, steps, |steps|, |steps|);
    LoggedByOps(l, s, Home(l, states[0].disk), op, b);
  }

  lemma LoggedByOps(l: Layout, s: State, home: Disk, op: nat, b: nat)
    requires Inv(l, s, home) && op in s.ops && b in s.ops[op]
    ensures b in s.blocks
  {
    hide StructureOk, RunningOk, CommittingOk, DurableOk;
  }
}
