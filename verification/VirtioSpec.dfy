/** The disk's request queue by request: what the driver of kernel/virtio_disk.c and the device do to the
    requests, without descriptors, rings or indices. Requests are numbered as they are made. */
module VirtioSpec {
  import opened Options
  import opened Seqs

  /** Where a request is: its chain is in the ring slot but not published, published, taken by the
      device, in the used ring, or released to its waiter. */
  datatype Phase = Made | Queued | Working | Used | Done

  /** `phase`, `buf` and `status` are of the requests that are not over; `queued` and `used` are the two
      rings; `completed`, `released` and `over` are histories, in order. */
  datatype Queue = Queue(
    made: nat,
    posting: Option<nat>,
    queued: seq<nat>,
    used: seq<nat>,
    phase: map<nat, Phase>,
    buf: map<nat, nat>,
    status: map<nat, nat>,
    completed: seq<nat>,
    released: seq<nat>,
    over: seq<nat>,
    panicked: bool)

  /** What may happen next: a process asks for a block, publishes what it asked for, or finds its request
      done; the device takes or completes a request; the interrupt handler goes one round. */
  datatype Action = Request(b: nat, write: bool) | Post | Take | Complete(x: nat, status: nat) | Interrupt
                  | Collect(x: nat)

  const ROOM: nat := 2 // chains of three that eight descriptors have room for
  const PENDING: nat := 0xff // the status of a request before the device sets it

  function Idle(): (q: Queue) { Queue(0, None, [], [], map[], map[], map[], [], [], [], false) }

  /** One action. One that is not possible at the moment changes nothing: its process sleeps, or the device
      has no such request. After a panic nothing happens. */
  function Next(q: Queue, a: Action): (r: Queue) {
    if q.panicked then q else
    match a
    case Request(b, _) =>
      if q.posting.Some? || b in q.buf.Values || |q.buf| >= ROOM then q
      else
        var x := q.made;
        q.(made := x + 1, posting := Some(x), phase := q.phase[x := Made], buf := q.buf[x := b],
           status := q.status[x := PENDING])
    case Post =>
      if q.posting.None? then q
      else
        var x := q.posting.value;
        q.(posting := None, queued := q.queued + [x], phase := q.phase[x := Queued])
    case Take =>
      if q.queued == [] then q
      else q.(queued := q.queued[1..], phase := q.phase[q.queued[0] := Working])
    case Complete(x, st) =>
      if x !in q.phase || q.phase[x] != Working then q
      else
        q.(used := q.used + [x], phase := q.phase[x := Used], status := q.status[x := st],
           completed := q.completed + [x])
    case Interrupt =>
      if q.used == [] then q
      else
        var x := q.used[0];
        if x in q.status && q.status[x] != 0 then q.(panicked := true)
        else q.(used := q.used[1..], phase := q.phase[x := Done], released := q.released + [x])
    case Collect(x) =>
      if x !in q.phase || q.phase[x] != Done then q
      else q.(phase := q.phase - {x}, buf := q.buf - {x}, status := q.status - {x}, over := q.over + [x])
  }

  function RunFrom(q: Queue, actions: seq<Action>): (r: Queue)
    decreases |actions|
  {
    if actions == [] then q else Next(RunFrom(q, actions[..|actions| - 1]), actions[|actions| - 1])
  }

  // ------------------------------------------------------------ the invariant

  function PhaseOf(q: Queue, x: nat): (p: Option<Phase>) { if x in q.phase then Some(q.phase[x]) else None }

  /** Request x is where the lists say it is, and has come as far in the histories as its phase says. */
  ghost predicate PlaceOk(q: Queue, x: nat) {
    var p := PhaseOf(q, x);
    && (x < q.made <==> p.Some? || x in q.over) && !(p.Some? && x in q.over)
    && (q.posting == Some(x) <==> p == Some(Made))
    && (x in q.queued <==> p == Some(Queued)) && (x in q.used <==> p == Some(Used))
    && (x in q.completed <==> p == Some(Used) || p == Some(Done) || x in q.over)
    && (x in q.released <==> p == Some(Done) || x in q.over)
  }

  ghost predicate ListsOk(q: Queue) {
    && Distinct(q.queued) && Distinct(q.used) && Distinct(q.over) && Distinct(q.completed)
    && q.completed == q.released + q.used
  }

  ghost predicate QueueOk(q: Queue) { ListsOk(q) && forall x: nat {:trigger PlaceOk(q, x)} :: PlaceOk(q, x) }

  lemma Appended(s: seq<nat>, x: nat)
    requires Distinct(s) && x !in s
    ensures Distinct(s + [x])
  {
  }

  lemma Popped(s: seq<nat>)
    requires Distinct(s) && s != []
    ensures Distinct(s[1..]) && s == [s[0]] + s[1..] && s[0] !in s[1..]
  {
  }

  lemma ListsKept(q: Queue, a: Action)
    requires QueueOk(q)
    ensures ListsOk(Next(q, a))
  {
    hide Distinct;
    var r := Next(q, a);
    if r != q && !a.Request? && !r.panicked {
      match a
      case Post =>
        assert PlaceOk(q, q.posting.value);
        Appended(q.queued, q.posting.value);
      case Take =>
        Popped(q.queued);
      case Complete(x, _) =>
        assert PlaceOk(q, x);
        Appended(q.used, x);
        Appended(q.completed, x);
        assert q.released + q.used + [x] == q.released + (q.used + [x]);
      case Interrupt =>
        Popped(q.used);
        assert q.released + ([q.used[0]] + q.used[1..]) == q.released + [q.used[0]] + q.used[1..];
      case Collect(x) =>
        assert PlaceOk(q, x);
        Appended(q.over, x);
    }
  }

  lemma PlaceOf(q: Queue, x: nat)
    requires QueueOk(q)
    ensures PlaceOk(q, x)
  {
    hide PlaceOk, ListsOk;
  }

  lemma PlaceMade(q: Queue, a: Action, x: nat)
    requires QueueOk(q) && (a.Request? || a.Post?)
    ensures PlaceOk(Next(q, a), x)
  {
    hide Distinct, QueueOk;
    PlaceOf(q, x);
    if a.Request? { PlaceOf(q, q.made); } else if q.posting.Some? { PlaceOf(q, q.posting.value); }
  }

  lemma PlaceTaken(q: Queue, a: Action, x: nat)
    requires QueueOk(q) && (a.Take? || a.Complete?)
    ensures PlaceOk(Next(q, a), x)
  {
    hide QueueOk;
    PlaceOf(q, x);
    if a.Take? && q.queued != [] {
      PlaceOf(q, q.queued[0]);
      assert Distinct(q.queued) by { ListsOf(q); }
      hide Distinct;
      Popped(q.queued);
    }
  }

  lemma ListsOf(q: Queue)
    requires QueueOk(q)
    ensures ListsOk(q)
  {
    hide PlaceOk, ListsOk;
  }

  lemma PlaceEnded(q: Queue, a: Action, x: nat)
    requires QueueOk(q) && (a.Interrupt? || a.Collect?)
    ensures PlaceOk(Next(q, a), x)
  {
    hide QueueOk;
    PlaceOf(q, x);
    if a.Interrupt? && q.used != [] {
      PlaceOf(q, q.used[0]);
      assert Distinct(q.used) by { ListsOf(q); }
      hide Distinct;
      Popped(q.used);
    }
  }

  lemma PlaceKept(q: Queue, a: Action, x: nat)
    requires QueueOk(q)
    ensures PlaceOk(Next(q, a), x)
  {
    hide QueueOk, PlaceOk, Next;
    if a.Request? || a.Post? {
      PlaceMade(q, a, x);
    } else if a.Take? || a.Complete? {
      PlaceTaken(q, a, x);
    } else {
      PlaceEnded(q, a, x);
    }
  }

  lemma StepKeeps(q: Queue, a: Action)
    requires QueueOk(q)
    ensures QueueOk(Next(q, a))
  {
    hide PlaceOk, ListsOk, Next;
    ListsKept(q, a);
    forall x: nat ensures PlaceOk(Next(q, a), x) { PlaceKept(q, a, x); }
  }

  lemma {:induction false} RunKeeps(actions: seq<Action>)
    ensures QueueOk(RunFrom(Idle(), actions))
    decreases |actions|
  {
    if actions != [] {
      RunKeeps(actions[..|actions| - 1]);
      StepKeeps(RunFrom(Idle(), actions[..|actions| - 1]), actions[|actions| - 1]);
    }
  }

  // ------------------------------------------------------------ the life of a request

  /** How far a request has come: not made, made, published, taken, completed, released, over. */
  function Stage(q: Queue, x: nat): (k: nat) {
    if x in q.over then 6
    else match PhaseOf(q, x)
         case None => 0
         case Some(Made) => 1
         case Some(Queued) => 2
         case Some(Working) => 3
         case Some(Used) => 4
         case Some(Done) => 5
  }

  /** The action that takes request x on from stage k, and that it is possible in q. */
  predicate Causes(q: Queue, a: Action, x: nat, k: nat) {
    !q.panicked && Stage(q, x) == k &&
    match k
    case 0 => a.Request? && x == q.made && q.posting.None? && a.b !in q.buf.Values && |q.buf| < ROOM
    case 1 => a.Post? && q.posting == Some(x)
    case 2 => a.Take? && q.queued != [] && q.queued[0] == x
    case 3 => a.Complete? && a.x == x
    case 4 => a.Interrupt? && q.used != [] && q.used[0] == x && (x in q.status ==> q.status[x] == 0)
    case 5 => a.Collect? && a.x == x
    case _ => false
  }

  /** An action takes the request it is for one stage on, and leaves every other request where it is. */
  lemma StageStep(q: Queue, a: Action, x: nat)
    requires QueueOk(q)
    ensures Stage(Next(q, a), x) == if Causes(q, a, x, Stage(q, x)) then Stage(q, x) + 1 else Stage(q, x)
  {
    hide Distinct;
    assert PlaceOk(q, x);
    if a.Request? { assert PlaceOk(q, q.made); }
  }

  /** At step i of the run, request x goes from stage k to the next, by the action that does that. */
  ghost predicate Passes(actions: seq<Action>, i: nat, x: nat, k: nat) {
    i < |actions| && Causes(RunFrom(Idle(), actions[..i]), actions[i], x, k)
  }

  ghost function StageAt(actions: seq<Action>, i: nat, x: nat): (k: nat)
    requires i <= |actions|
  {
    Stage(RunFrom(Idle(), actions[..i]), x)
  }

  lemma StageNext(actions: seq<Action>, i: nat, x: nat)
    requires i < |actions|
    ensures StageAt(actions, i + 1, x)
         == if Passes(actions, i, x, StageAt(actions, i, x)) then StageAt(actions, i, x) + 1 else StageAt(actions, i, x)
  {
    hide Stage, Causes, Next, QueueOk;
    assert actions[..i + 1][..i] == actions[..i];
    RunKeeps(actions[..i]);
    StageStep(RunFrom(Idle(), actions[..i]), actions[i], x);
  }

  lemma {:induction false} StageGrows(actions: seq<Action>, i: nat, j: nat, x: nat)
    requires i <= j <= |actions|
    ensures StageAt(actions, i, x) <= StageAt(actions, j, x)
    decreases j
  {
    hide StageAt, Passes;
    if i < j {
      StageGrows(actions, i, j - 1, x);
      StageNext(actions, j - 1, x);
    }
  }

  lemma {:induction false} FirstAbove(actions: seq<Action>, n: nat, x: nat, k: nat) returns (i: nat)
    requires n <= |actions| && k < StageAt(actions, n, x)
    ensures i < n && StageAt(actions, i, x) == k && Passes(actions, i, x, k)
    decreases n
  {
    hide StageAt, Passes;
    NothingYet(actions, x);
    StageNext(actions, n - 1, x);
    if k < StageAt(actions, n - 1, x) { i := FirstAbove(actions, n - 1, x, k); } else { i := n - 1; }
  }

  lemma NothingYet(actions: seq<Action>, x: nat)
    ensures StageAt(actions, 0, x) == 0
  {
  }

  lemma PassesAt(actions: seq<Action>, i: nat, x: nat, k: nat)
    requires Passes(actions, i, x, k)
    ensures StageAt(actions, i, x) == k
  {
  }

  /** In every run, whatever the device and the processes do: a request that has come past stage k did so at
      exactly one step, by the one action that does it for that request. */
  lemma EachStageOnce(actions: seq<Action>, x: nat, k: nat) returns (i: nat)
    requires k < Stage(RunFrom(Idle(), actions), x)
    ensures Passes(actions, i, x, k) && forall j: nat :: Passes(actions, j, x, k) ==> j == i
  {
    assert actions[..|actions|] == actions;
    i := FirstAbove(actions, |actions|, x, k);
    hide StageAt, Passes, Stage, RunFrom;
    forall j: nat | Passes(actions, j, x, k) ensures j == i {
      assert j < |actions| by { PassesIn(actions, j, x, k); }
      PassesAt(actions, j, x, k);
      StageNext(actions, i, x);
      StageNext(actions, j, x);
      if i < j { StageGrows(actions, i + 1, j, x); }
      if j < i { StageGrows(actions, j + 1, i, x); }
    }
  }

  lemma PassesIn(actions: seq<Action>, i: nat, x: nat, k: nat)
    requires Passes(actions, i, x, k)
    ensures i < |actions|
  {
  }

  /** And the stages come in order. */
  lemma StagesInOrder(actions: seq<Action>, x: nat, k: nat, l: nat, i: nat, j: nat)
    requires Passes(actions, i, x, k) && Passes(actions, j, x, l) && k < l
    ensures i < j
  {
    hide StageAt, Stage, RunFrom, Causes;
    PassesAt(actions, i, x, k);
    PassesAt(actions, j, x, l);
    if j < i { StageGrows(actions, j, i, x); }
  }

  /** What the histories hold in every run: requests are completed and released once each, released in the
      order of completion, and over only after that; every request made is in one place. */
  lemma HistoriesAgree(actions: seq<Action>)
    ensures var q := RunFrom(Idle(), actions);
            && q.released <= q.completed && Distinct(q.completed) && Distinct(q.over)
            && forall x: nat :: && (x in q.completed <==> Stage(q, x) >= 4) && (x in q.released <==> Stage(q, x) >= 5)
                                && (x in q.over <==> Stage(q, x) == 6) && (x < q.made <==> Stage(q, x) >= 1)
  {
    hide RunFrom, Distinct;
    RunKeeps(actions);
    var q := RunFrom(Idle(), actions);
    forall x: nat
      ensures (x in q.completed <==> Stage(q, x) >= 4) && (x in q.released <==> Stage(q, x) >= 5)
      ensures (x in q.over <==> Stage(q, x) == 6) && (x < q.made <==> Stage(q, x) >= 1)
    {
      assert PlaceOk(q, x);
    }
  }

  /** Every completion is of a request that the device had taken, made by one action Complete for it. */
  lemma CompletedOnce(actions: seq<Action>, x: nat) returns (i: nat)
    requires x in RunFrom(Idle(), actions).completed
    ensures Passes(actions, i, x, 3) && actions[i].Complete? && actions[i].x == x
    ensures forall j: nat :: Passes(actions, j, x, 3) ==> j == i
  {
    HistoriesAgree(actions);
    i := EachStageOnce(actions, x, 3);
  }

  /** Every waiter is released by one round of the interrupt handler, after the completion of its request. */
  lemma ReleasedOnce(actions: seq<Action>, x: nat) returns (i: nat, c: nat)
    requires x in RunFrom(Idle(), actions).released
    ensures Passes(actions, i, x, 4) && actions[i].Interrupt? && forall j: nat :: Passes(actions, j, x, 4) ==> j == i
    ensures Passes(actions, c, x, 3) && actions[c].Complete? && actions[c].x == x && c < i
  {
    HistoriesAgree(actions);
    i := EachStageOnce(actions, x, 4);
    c := EachStageOnce(actions, x, 3);
    hide RunFrom;
    StagesInOrder(actions, x, 3, 4, c, i);
  }
}
