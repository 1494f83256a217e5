/** The parser of user/sh.c on tokens, and that it accepts exactly what the grammar derives. */
module ShellParse {
  import opened ShellGrammar

  datatype Parsed = Fail | Ok(c: Cmd, rest: seq<Token>)

  predicate Starts(ts: seq<Token>, c: char) { ts != [] && ts[0] == Sym(c) }

  /** No word or redirection follows: a simple command is over. */
  predicate AtStop(ts: seq<Token>) {
    ts == [] || Starts(ts, '|') || Starts(ts, ')') || Starts(ts, '&') || Starts(ts, ';')
  }

  function RedirsF(c: Cmd, ts: seq<Token>): (r: Parsed)
    ensures r.Ok? ==> |r.rest| <= |ts|
    decreases |ts|
  {
    if ts == [] || !IsRedirOp(ts[0]) then Ok(c, ts)
    else if |ts| >= 2 && ts[1].Word? then RedirsF(Redirected(c, ts[0].c, ts[1].span), ts[2..])
    else Fail
  }

  /** The loop of parseexec, with argc words before. */
  function ArgsF(c: Cmd, argc: nat, ts: seq<Token>): (r: Parsed)
    ensures r.Ok? ==> |r.rest| <= |ts|
    decreases |ts|
  {
    if AtStop(ts) then Ok(c, ts)
    else if !ts[0].Word? || argc + 1 >= MAXARGS then Fail
    else match RedirsF(AddArg(c, ts[0].span), ts[1..])
         case Fail => Fail
         case Ok(d, rest) => ArgsF(d, argc + 1, rest)
  }

  function ExecF(ts: seq<Token>): (r: Parsed)
    ensures r.Ok? ==> |r.rest| <= |ts|
    decreases |ts|, 0
  {
    if Starts(ts, '(') then
      match LineF(ts[1..])
      case Fail => Fail
      case Ok(c, rest) => if Starts(rest, ')') then RedirsF(c, rest[1..]) else Fail
    else
      match RedirsF(Exec([]), ts)
      case Fail => Fail
      case Ok(c, rest) => ArgsF(c, 0, rest)
  }

  function PipeF(ts: seq<Token>): (r: Parsed)
    ensures r.Ok? ==> |r.rest| <= |ts|
    decreases |ts|, 1
  {
    match ExecF(ts)
    case Fail => Fail
    case Ok(c, rest) =>
      if Starts(rest, '|') then
        match PipeF(rest[1..])
        case Fail => Fail
        case Ok(d, rest') => Ok(Pipe(c, d), rest')
      else Ok(c, rest)
  }

  function BacksF(c: Cmd, ts: seq<Token>): (r: Parsed)
    ensures r.Ok? && |r.rest| <= |ts|
    decreases |ts|
  {
    if Starts(ts, '&') then BacksF(Back(c), ts[1..]) else Ok(c, ts)
  }

  function LineF(ts: seq<Token>): (r: Parsed)
    ensures r.Ok? ==> |r.rest| <= |ts|
    decreases |ts|, 2
  {
    match PipeF(ts)
    case Fail => Fail
    case Ok(c, rest) =>
      var b := BacksF(c, rest);
      if Starts(b.rest, ';') then
        match LineF(b.rest[1..])
        case Fail => Fail
        case Ok(d, rest') => Ok(List(b.c, d), rest')
      else b
  }

  // What it accepts, the grammar derives: the tokens consumed derive the command.

  lemma {:induction false} RedirsSound(base: Cmd, ts: seq<Token>) returns (us: seq<Token>)
    requires RedirsF(base, ts).Ok?
    ensures var r := RedirsF(base, ts); ts == us + r.rest && IsRedirs(base, r.c, us)
                                        && (r.rest == [] || !IsRedirOp(r.rest[0]))
    decreases |ts|
  {
    if ts == [] || !IsRedirOp(ts[0]) {
      us := [];
    } else {
      var vs := RedirsSound(Redirected(base, ts[0].c, ts[1].span), ts[2..]);
      us := [ts[0], ts[1]] + vs;
      assert us[2..] == vs && ts == [ts[0], ts[1]] + ts[2..];
    }
  }

  lemma {:induction false} SimpleRedirs(d: Cmd, m: Cmd, c: Cmd, us: seq<Token>, vs: seq<Token>)
    requires IsRedirs(d, m, us) && SimpleFrom(m, c, vs)
    ensures SimpleFrom(d, c, us + vs)
    decreases |us|
  {
    if us == [] {
      assert us + vs == vs;
    } else {
      SimpleRedirs(Redirected(d, us[0].c, us[1].span), m, c, us[2..], vs);
      assert (us + vs)[2..] == us[2..] + vs;
    }
  }

  lemma SimpleWord(d: Cmd, c: Cmd, w: Span, us: seq<Token>)
    requires SimpleFrom(AddArg(d, w), c, us)
    ensures SimpleFrom(d, c, [Word(w)] + us)
  {
    assert ([Word(w)] + us)[1..] == us;
  }

  /** Associativity, for what follows. */
  lemma Parts(ts: seq<Token>, a: seq<Token>, b: seq<Token>, m: seq<Token>, c: seq<Token>)
    requires ts == a + m && m == b + c
    ensures ts == (a + b) + c
  {
  }

  lemma Head(ts: seq<Token>)
    requires ts != []
    ensures ts == [ts[0]] + ts[1..]
  {
  }

  lemma ArgsStep(c: Cmd, argc: nat, ts: seq<Token>)
    requires ArgsF(c, argc, ts).Ok? && !AtStop(ts)
    ensures ts != [] && ts[0].Word?
    ensures var m := RedirsF(AddArg(c, ts[0].span), ts[1..]);
            m.Ok? && ArgsF(m.c, argc + 1, m.rest).Ok? && ArgsF(c, argc, ts) == ArgsF(m.c, argc + 1, m.rest)
  {
  }

  lemma {:induction false} ArgsSound(c: Cmd, argc: nat, ts: seq<Token>) returns (us: seq<Token>)
    requires ArgsF(c, argc, ts).Ok?
    ensures var r := ArgsF(c, argc, ts); ts == us + r.rest && SimpleFrom(c, r.c, us) && AtStop(r.rest)
    decreases |ts|
  {
    if AtStop(ts) {
      us := [];
    } else {
      hide ArgsF, RedirsF, SimpleFrom, IsRedirs, AtStop;
      ArgsStep(c, argc, ts);
      var w, r := ts[0].span, ArgsF(c, argc, ts);
      var m := RedirsF(AddArg(c, w), ts[1..]);
      var vs := RedirsSound(AddArg(c, w), ts[1..]);
      var ws := ArgsSound(m.c, argc + 1, m.rest);
      SimpleRedirs(AddArg(c, w), m.c, r.c, vs, ws);
      SimpleWord(c, r.c, w, vs + ws);
      Head(ts);
      Parts(ts[1..], vs, ws, m.rest, r.rest);
      Parts(ts, [Word(w)], vs + ws, ts[1..], r.rest);
      us := [Word(w)] + (vs + ws);
    }
  }

  lemma BlockStep(ts: seq<Token>)
    requires ExecF(ts).Ok? && Starts(ts, '(')
    ensures var l := LineF(ts[1..]); l.Ok? && Starts(l.rest, ')') && ExecF(ts) == RedirsF(l.c, l.rest[1..])
  {
  }

  lemma SimpleStep(ts: seq<Token>)
    requires ExecF(ts).Ok? && !Starts(ts, '(')
    ensures var m := RedirsF(Exec([]), ts); m.Ok? && ArgsF(m.c, 0, m.rest).Ok? && ExecF(ts) == ArgsF(m.c, 0, m.rest)
  {
  }

  lemma {:induction false} ExecSound(ts: seq<Token>) returns (us: seq<Token>)
    requires ExecF(ts).Ok?
    ensures var r := ExecF(ts); ts == us + r.rest && IsExec(r.c, us)
    decreases |ts|, 0
  {
    hide ExecF, LineF, ArgsF, RedirsF, SimpleFrom, IsRedirs, AtStop, IsLine, IsExec;
    if Starts(ts, '(') {
      BlockStep(ts);
      var r, l := ExecF(ts), LineF(ts[1..]);
      var vs := LineSound(ts[1..]);
      var ws := RedirsSound(l.c, l.rest[1..]);
      BlockExec(l.c, r.c, vs, ws);
      Head(ts);
      Head(l.rest);
      Parts(ts, [Sym('(')], vs, ts[1..], l.rest);
      Parts(ts, [Sym('(')] + vs, [Sym(')')], l.rest, l.rest[1..]);
      Parts(ts, [Sym('(')] + vs + [Sym(')')], ws, l.rest[1..], r.rest);
      us := [Sym('(')] + vs + [Sym(')')] + ws;
    } else {
      SimpleStep(ts);
      var r, m := ExecF(ts), RedirsF(Exec([]), ts);
      var vs := RedirsSound(Exec([]), ts);
      var ws := ArgsSound(m.c, 0, m.rest);
      SimpleRedirs(Exec([]), m.c, r.c, vs, ws);
      SimpleIsExec(r.c, vs + ws);
      Parts(ts, vs, ws, m.rest, r.rest);
      us := vs + ws;
    }
  }

  lemma SimpleIsExec(c: Cmd, ts: seq<Token>)
    requires IsSimple(c, ts)
    ensures IsExec(c, ts)
  {
  }

  lemma BlockExec(d: Cmd, c: Cmd, ts: seq<Token>, us: seq<Token>)
    requires IsLine(d, ts) && IsRedirs(d, c, us)
    ensures IsExec(c, [Sym('(')] + ts + [Sym(')')] + us)
  {
    hide IsLine, IsRedirs;
    var all := [Sym('(')] + ts + [Sym(')')] + us;
    var i := |ts| + 1;
    assert all[1..i] == ts && all[i] == Sym(')') && all[i + 1..] == us;
  }

  lemma PipeStep(ts: seq<Token>)
    requires PipeF(ts).Ok?
    ensures var e := ExecF(ts);
            e.Ok? && if Starts(e.rest, '|') then PipeF(e.rest[1..]).Ok?
                                                 && PipeF(ts) == Ok(Pipe(e.c, PipeF(e.rest[1..]).c),
                                                                    PipeF(e.rest[1..]).rest)
                     else PipeF(ts) == e
  {
  }

  lemma {:induction false} PipeSound(ts: seq<Token>) returns (us: seq<Token>)
    requires PipeF(ts).Ok?
    ensures var r := PipeF(ts); ts == us + r.rest && IsPipe(r.c, us)
    decreases |ts|, 1
  {
    hide PipeF, ExecF, IsExec, IsPipe;
    PipeStep(ts);
    var e := ExecF(ts);
    us := ExecSound(ts);
    ExecIsPipe(e.c, us);
    if Starts(e.rest, '|') {
      var vs := PipeSound(e.rest[1..]);
      PipeOf(e.c, PipeF(e.rest[1..]).c, us, vs);
      Head(e.rest);
      Parts(ts, us, [Sym('|')], e.rest, e.rest[1..]);
      Parts(ts, us + [Sym('|')], vs, e.rest[1..], PipeF(ts).rest);
      us := us + [Sym('|')] + vs;
    }
  }

  lemma ExecIsPipe(c: Cmd, ts: seq<Token>)
    requires IsExec(c, ts)
    ensures IsPipe(c, ts)
  {
  }

  lemma PipeOf(l: Cmd, r: Cmd, ts: seq<Token>, us: seq<Token>)
    requires IsExec(l, ts) && IsPipe(r, us)
    ensures IsPipe(Pipe(l, r), ts + [Sym('|')] + us)
  {
    hide IsExec;
    var all := ts + [Sym('|')] + us;
    assert all[..|ts|] == ts && all[|ts|] == Sym('|') && all[|ts| + 1..] == us;
  }

  lemma {:induction false} BacksSound(c: Cmd, us: seq<Token>, ts: seq<Token>) returns (vs: seq<Token>)
    requires IsJobs(c, us)
    ensures var r := BacksF(c, ts); ts == vs + r.rest && IsJobs(r.c, us + vs) && !Starts(r.rest, '&')
    decreases |ts|
  {
    if Starts(ts, '&') {
      assert (us + [Sym('&')])[..|us|] == us;
      assert IsJobs(Back(c), us + [Sym('&')]);
      hide IsJobs;
      var ws := BacksSound(Back(c), us + [Sym('&')], ts[1..]);
      vs := [Sym('&')] + ws;
      assert us + vs == us + [Sym('&')] + ws && ts == [Sym('&')] + ts[1..];
    } else {
      vs := [];
      assert us + vs == us;
    }
  }

  lemma LineStep(ts: seq<Token>)
    requires LineF(ts).Ok?
    ensures var e := PipeF(ts);
            e.Ok? && var b := BacksF(e.c, e.rest);
                     if Starts(b.rest, ';') then LineF(b.rest[1..]).Ok?
                                                 && LineF(ts) == Ok(List(b.c, LineF(b.rest[1..]).c),
                                                                    LineF(b.rest[1..]).rest)
                     else LineF(ts) == b
  {
  }

  lemma {:induction false} LineSound(ts: seq<Token>) returns (us: seq<Token>)
    requires LineF(ts).Ok?
    ensures var r := LineF(ts); ts == us + r.rest && IsLine(r.c, us)
    decreases |ts|, 2
  {
    hide LineF, PipeF, BacksF, IsPipe, IsJobs, IsLine;
    LineStep(ts);
    var e := PipeF(ts);
    var b := BacksF(e.c, e.rest);
    us := PipeSound(ts);
    PipeIsJobs(e.c, us);
    var vs := BacksSound(e.c, us, e.rest);
    Parts(ts, us, vs, e.rest, b.rest);
    us := us + vs;
    JobsIsLine(b.c, us);
    if Starts(b.rest, ';') {
      var ws := LineSound(b.rest[1..]);
      ListOf(b.c, LineF(b.rest[1..]).c, us, ws);
      Head(b.rest);
      Parts(ts, us, [Sym(';')], b.rest, b.rest[1..]);
      Parts(ts, us + [Sym(';')], ws, b.rest[1..], LineF(ts).rest);
      us := us + [Sym(';')] + ws;
    }
  }

  lemma PipeIsJobs(c: Cmd, ts: seq<Token>)
    requires IsPipe(c, ts)
    ensures IsJobs(c, ts)
  {
  }

  lemma JobsIsLine(c: Cmd, ts: seq<Token>)
    requires IsJobs(c, ts)
    ensures IsLine(c, ts)
  {
  }

  lemma ListOf(l: Cmd, r: Cmd, ts: seq<Token>, us: seq<Token>)
    requires IsJobs(l, ts) && IsLine(r, us)
    ensures IsLine(List(l, r), ts + [Sym(';')] + us)
  {
    hide IsJobs;
    var all := ts + [Sym(';')] + us;
    assert all[..|ts|] == ts && all[|ts|] == Sym(';') && all[|ts| + 1..] == us;
  }

  // What the grammar derives, it accepts.

  /** No command has too many arguments. */
  predicate Limits(c: Cmd) {
    match c
    case Exec(argv) => |argv| < MAXARGS
    case Redir(d, _, _, _) => Limits(d)
    case Pipe(l, r) => Limits(l) && Limits(r)
    case List(l, r) => Limits(l) && Limits(r)
    case Back(d) => Limits(d)
  }

  /** The arguments of the exec command under c's redirections. */
  function NArgs(c: Cmd): (n: nat)
    requires HasExec(c)
    ensures Limits(c) <==> n < MAXARGS
  {
    if c.Exec? then |c.argv| else NArgs(c.cmd)
  }

  lemma AddArgCounts(c: Cmd, w: Span)
    requires HasExec(c)
    ensures HasExec(AddArg(c, w)) && NArgs(AddArg(c, w)) == NArgs(c) + 1
  {
    if c.Redir? { AddArgCounts(c.cmd, w); }
  }

  lemma {:induction false} SimpleCounts(d: Cmd, c: Cmd, us: seq<Token>)
    requires SimpleFrom(d, c, us) && HasExec(d)
    ensures HasExec(c) && NArgs(c) >= NArgs(d)
    decreases |us|
  {
    if us != [] {
      if us[0].Word? {
        AddArgCounts(d, us[0].span);
        SimpleCounts(AddArg(d, us[0].span), c, us[1..]);
      } else {
        SimpleCounts(Redirected(d, us[0].c, us[1].span), c, us[2..]);
      }
    }
  }

  lemma {:induction false} RedirsComplete(base: Cmd, c: Cmd, us: seq<Token>, rest: seq<Token>)
    requires IsRedirs(base, c, us) && AtStop(rest)
    ensures RedirsF(base, us + rest) == Ok(c, rest)
    decreases |us|
  {
    if us == [] {
      assert us + rest == rest;
    } else {
      RedirsComplete(Redirected(base, us[0].c, us[1].span), c, us[2..], rest);
      assert (us + rest)[2..] == us[2..] + rest;
    }
  }

  lemma ArgsMake(c: Cmd, argc: nat, ts: seq<Token>, d: Cmd, rest: seq<Token>)
    requires ts != [] && ts[0].Word? && argc + 1 < MAXARGS && RedirsF(AddArg(c, ts[0].span), ts[1..]) == Ok(d, rest)
    ensures RedirsF(c, ts) == Ok(c, ts) && ArgsF(c, argc, ts) == ArgsF(d, argc + 1, rest)
  {
  }

  lemma RedirsMake(c: Cmd, ts: seq<Token>)
    requires |ts| >= 2 && IsRedirOp(ts[0]) && ts[1].Word?
    ensures RedirsF(c, ts) == RedirsF(Redirected(c, ts[0].c, ts[1].span), ts[2..])
  {
  }

  lemma StopMake(c: Cmd, argc: nat, ts: seq<Token>)
    requires AtStop(ts)
    ensures RedirsF(c, ts) == Ok(c, ts) && ArgsF(c, argc, ts) == Ok(c, ts)
  {
  }

  lemma RedirectedArgs(d: Cmd, op: char, w: Span)
    requires HasExec(d)
    ensures HasExec(Redirected(d, op, w)) && NArgs(Redirected(d, op, w)) == NArgs(d)
  {
  }

  lemma {:induction false} SimpleComplete(d: Cmd, c: Cmd, us: seq<Token>, rest: seq<Token>)
    requires SimpleFrom(d, c, us) && AtStop(rest) && HasExec(d) && Limits(c)
    ensures var m := RedirsF(d, us + rest); m.Ok? && ArgsF(m.c, NArgs(d), m.rest) == Ok(c, rest)
    decreases |us|
  {
    hide SimpleFrom, RedirsF, ArgsF, AtStop, Limits, NArgs, HasExec, AddArg;
    SimpleHead(d, c, us);
    if us == [] {
      assert us + rest == rest;
      StopMake(d, NArgs(d), rest);
    } else {
      if us[0].Word? {
        var e := AddArg(d, us[0].span);
        AddArgCounts(d, us[0].span);
        SimpleCounts(e, c, us[1..]);
        SimpleComplete(e, c, us[1..], rest);
        assert (us + rest)[1..] == us[1..] + rest;
        var m := RedirsF(e, us[1..] + rest);
        ArgsMake(d, NArgs(d), us + rest, m.c, m.rest);
      } else {
        RedirectedArgs(d, us[0].c, us[1].span);
        SimpleComplete(Redirected(d, us[0].c, us[1].span), c, us[2..], rest);
        assert (us + rest)[2..] == us[2..] + rest;
        RedirsMake(d, us + rest);
      }
    }
  }

  lemma {:induction false} RedirsLimits(base: Cmd, c: Cmd, us: seq<Token>)
    requires IsRedirs(base, c, us)
    ensures Limits(c) <==> Limits(base)
    decreases |us|
  {
    if us != [] { RedirsLimits(Redirected(base, us[0].c, us[1].span), c, us[2..]); }
  }

  lemma SplitAt(us: seq<Token>, i: nat, rest: seq<Token>)
    requires i < |us|
    ensures var after := us[i..] + rest;
            us + rest == us[..i] + after && after != [] && after[0] == us[i] && after[1..] == us[i + 1..] + rest
  {
  }

  lemma SimpleStarts(c: Cmd, us: seq<Token>, rest: seq<Token>)
    requires IsSimple(c, us) && AtStop(rest)
    ensures !Starts(us + rest, '(')
  {
  }

  lemma BlockMake(ts: seq<Token>, d: Cmd, after: seq<Token>)
    requires Starts(ts, '(') && LineF(ts[1..]) == Ok(d, after) && Starts(after, ')')
    ensures ExecF(ts) == RedirsF(d, after[1..])
  {
  }

  lemma SimpleMake(ts: seq<Token>)
    requires !Starts(ts, '(') && RedirsF(Exec([]), ts).Ok?
    ensures ExecF(ts) == ArgsF(RedirsF(Exec([]), ts).c, 0, RedirsF(Exec([]), ts).rest)
  {
  }

  lemma BlockParts(c: Cmd, us: seq<Token>) returns (i: nat, d: Cmd)
    requires IsExec(c, us) && !IsSimple(c, us)
    ensures 0 < i < |us| && us[0] == Sym('(') && us[i] == Sym(')') && IsLine(d, us[1..i]) && IsRedirs(d, c, us[i + 1..])
  {
    i, d :| 0 < i < |us| && us[0] == Sym('(') && us[i] == Sym(')') && IsLine(d, us[1..i])
    && IsRedirs(d, c, us[i + 1..]);
  }

  lemma {:induction false} ExecComplete(c: Cmd, us: seq<Token>, rest: seq<Token>)
    requires IsExec(c, us) && AtStop(rest) && Limits(c)
    ensures ExecF(us + rest) == Ok(c, rest)
    decreases |us|, 0
  {
    hide IsExec, IsLine, IsRedirs, SimpleFrom, ExecF, LineF, RedirsF, ArgsF, Limits, AtStop;
    if IsSimple(c, us) {
      SimpleStarts(c, us, rest);
      SimpleComplete(Exec([]), c, us, rest);
      SimpleMake(us + rest);
    } else {
      var i, d := BlockParts(c, us);
      RedirsLimits(d, c, us[i + 1..]);
      SplitAt(us, i, rest);
      var after := us[i..] + rest;
      LineComplete(d, us[1..i], after);
      RedirsComplete(d, c, us[i + 1..], rest);
      assert (us + rest)[1..] == us[1..i] + after by { assert us[..i][1..] == us[1..i]; }
      BlockMake(us + rest, d, after);
    }
  }

  lemma PipeMake(ts: seq<Token>, c: Cmd, rest: seq<Token>)
    requires ExecF(ts) == Ok(c, rest)
    ensures !Starts(rest, '|') ==> PipeF(ts) == Ok(c, rest)
    ensures Starts(rest, '|') && PipeF(rest[1..]).Ok? ==>
              PipeF(ts) == Ok(Pipe(c, PipeF(rest[1..]).c), PipeF(rest[1..]).rest)
  {
  }

  lemma PipeParts(c: Cmd, us: seq<Token>) returns (i: nat)
    requires IsPipe(c, us) && !IsExec(c, us)
    ensures c.Pipe? && i < |us| && us[i] == Sym('|') && IsExec(c.left, us[..i]) && IsPipe(c.right, us[i + 1..])
  {
    i :| i < |us| && us[i] == Sym('|') && IsExec(c.left, us[..i]) && IsPipe(c.right, us[i + 1..]);
  }

  lemma {:induction false} PipeComplete(c: Cmd, us: seq<Token>, rest: seq<Token>)
    requires IsPipe(c, us) && AtStop(rest) && !Starts(rest, '|') && Limits(c)
    ensures PipeF(us + rest) == Ok(c, rest)
    decreases |us|, 1
  {
    hide IsExec, IsPipe, ExecF, PipeF;
    if IsExec(c, us) {
      ExecComplete(c, us, rest);
      PipeMake(us + rest, c, rest);
    } else {
      var i := PipeParts(c, us);
      SplitAt(us, i, rest);
      ExecComplete(c.left, us[..i], us[i..] + rest);
      PipeComplete(c.right, us[i + 1..], rest);
      PipeMake(us + rest, c.left, us[i..] + rest);
    }
  }

  lemma {:induction false} JobsComplete(c: Cmd, us: seq<Token>, rest: seq<Token>)
    requires IsJobs(c, us) && AtStop(rest) && !Starts(rest, '|') && Limits(c)
    ensures var p := PipeF(us + rest); p.Ok? && BacksF(p.c, p.rest) == BacksF(c, rest)
    decreases |us|, 2
  {
    if IsPipe(c, us) {
      hide IsPipe, PipeF;
      PipeComplete(c, us, rest);
    } else {
      hide IsPipe, PipeF;
      var n := |us| - 1;
      var after := [Sym('&')] + rest;
      JobsComplete(c.cmd, us[..n], after);
      assert us + rest == us[..n] + after && after[1..] == rest;
    }
  }

  lemma LineMake(ts: seq<Token>, c: Cmd, rest: seq<Token>)
    requires PipeF(ts).Ok? && BacksF(PipeF(ts).c, PipeF(ts).rest) == Ok(c, rest)
    ensures !Starts(rest, ';') ==> LineF(ts) == Ok(c, rest)
    ensures Starts(rest, ';') && LineF(rest[1..]).Ok? ==>
              LineF(ts) == Ok(List(c, LineF(rest[1..]).c), LineF(rest[1..]).rest)
  {
  }

  lemma LineParts(c: Cmd, us: seq<Token>) returns (i: nat)
    requires IsLine(c, us) && !IsJobs(c, us)
    ensures c.List? && i < |us| && us[i] == Sym(';') && IsJobs(c.left, us[..i]) && IsLine(c.right, us[i + 1..])
  {
    i :| i < |us| && us[i] == Sym(';') && IsJobs(c.left, us[..i]) && IsLine(c.right, us[i + 1..]);
  }

  lemma {:induction false} LineComplete(c: Cmd, us: seq<Token>, rest: seq<Token>)
    requires IsLine(c, us) && (rest == [] || Starts(rest, ')')) && Limits(c)
    ensures LineF(us + rest) == Ok(c, rest)
    decreases |us|, 3
  {
    hide IsJobs, IsLine, PipeF, LineF;
    if IsJobs(c, us) {
      JobsComplete(c, us, rest);
      LineMake(us + rest, c, rest);
    } else {
      var i := LineParts(c, us);
      SplitAt(us, i, rest);
      JobsComplete(c.left, us[..i], us[i..] + rest);
      LineComplete(c.right, us[i + 1..], rest);
      LineMake(us + rest, c.left, us[i..] + rest);
    }
  }

  // Accepted commands keep the limit.

  lemma {:induction false} ArgsLimit(c: Cmd, ts: seq<Token>)
    requires HasExec(c) && Limits(c) && ArgsF(c, NArgs(c), ts).Ok?
    ensures HasExec(ArgsF(c, NArgs(c), ts).c) && Limits(ArgsF(c, NArgs(c), ts).c)
    decreases |ts|
  {
    if !AtStop(ts) {
      hide ArgsF, AtStop;
      ArgsStep(c, NArgs(c), ts);
      assert NArgs(c) + 1 < MAXARGS by { ArgsRoom(c, NArgs(c), ts); }
      var d := AddArg(c, ts[0].span);
      AddArgCounts(c, ts[0].span);
      RedirsArgs(d, ts[1..]);
      ArgsLimit(RedirsF(d, ts[1..]).c, RedirsF(d, ts[1..]).rest);
    }
  }

  lemma ArgsRoom(c: Cmd, argc: nat, ts: seq<Token>)
    requires ArgsF(c, argc, ts).Ok? && !AtStop(ts)
    ensures argc + 1 < MAXARGS
  {
  }

  lemma {:induction false} RedirsArgs(c: Cmd, ts: seq<Token>)
    requires RedirsF(c, ts).Ok?
    ensures Limits(RedirsF(c, ts).c) <==> Limits(c)
    ensures HasExec(c) ==> HasExec(RedirsF(c, ts).c) && NArgs(RedirsF(c, ts).c) == NArgs(c)
    decreases |ts|
  {
    if ts != [] && IsRedirOp(ts[0]) { RedirsArgs(Redirected(c, ts[0].c, ts[1].span), ts[2..]); }
  }

  lemma {:induction false} BacksLimit(c: Cmd, ts: seq<Token>)
    ensures Limits(BacksF(c, ts).c) <==> Limits(c)
    decreases |ts|
  {
    if Starts(ts, '&') { BacksLimit(Back(c), ts[1..]); }
  }

  lemma {:induction false} ExecLimit(ts: seq<Token>)
    requires ExecF(ts).Ok?
    ensures Limits(ExecF(ts).c)
    decreases |ts|, 0
  {
    hide ExecF, LineF, ArgsF, RedirsF;
    if Starts(ts, '(') {
      BlockStep(ts);
      LineLimit(ts[1..]);
      RedirsArgs(LineF(ts[1..]).c, LineF(ts[1..]).rest[1..]);
    } else {
      SimpleStep(ts);
      RedirsArgs(Exec([]), ts);
      ArgsLimit(RedirsF(Exec([]), ts).c, RedirsF(Exec([]), ts).rest);
    }
  }

  lemma {:induction false} PipeLimit(ts: seq<Token>)
    requires PipeF(ts).Ok?
    ensures Limits(PipeF(ts).c)
    decreases |ts|, 1
  {
    hide PipeF, ExecF;
    PipeStep(ts);
    ExecLimit(ts);
    if Starts(ExecF(ts).rest, '|') { PipeLimit(ExecF(ts).rest[1..]); }
  }

  lemma {:induction false} LineLimit(ts: seq<Token>)
    requires LineF(ts).Ok?
    ensures Limits(LineF(ts).c)
    decreases |ts|, 2
  {
    hide LineF, PipeF, BacksF;
    LineStep(ts);
    PipeLimit(ts);
    var e := PipeF(ts);
    BacksLimit(e.c, e.rest);
    if Starts(BacksF(e.c, e.rest).rest, ';') { LineLimit(BacksF(e.c, e.rest).rest[1..]); }
  }

  /** The parser takes a line of tokens, and makes c of it, exactly when the grammar derives c from it and no
      command in it has MAXARGS arguments or more. */
  lemma AcceptsExactlyTheGrammar(c: Cmd, ts: seq<Token>)
    ensures LineF(ts) == Ok(c, []) <==> IsLine(c, ts) && Limits(c)
  {
    hide LineF, IsLine, Limits;
    if LineF(ts) == Ok(c, []) {
      var us := LineSound(ts);
      assert us + [] == us;
      LineLimit(ts);
    }
    if IsLine(c, ts) && Limits(c) {
      LineComplete(c, ts, []);
      assert ts + [] == ts;
    }
  }
}
