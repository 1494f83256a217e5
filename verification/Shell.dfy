/** The recursive-descent parser of user/sh.c, with its cursor into the line and its writes into the
    line's buffer. A method answers ok == false where the shell panics. */
module Shell {
  import opened ShellGrammar
  import opened ShellParse

  /** The C string that starts at position q: up to the first NUL. */
  ghost predicate CString(s: seq<char>, q: nat, str: seq<char>) {
    q + |str| < |s| && s[q..q + |str|] == str && s[q + |str|] == '\0' && forall i :: 0 <= i < |str| ==> str[i] != '\0'
  }

  /** The words of a command are words of the line. */
  ghost predicate WordsOfLine(s: seq<char>, n: nat, c: Cmd) {
    n < |s| && forall w :: w in Words(c) ==> WordAt(s, n, w)
  }

  /** From s to t, word characters are as they were, and other characters are or have become NUL. */
  ghost predicate Kept(s: seq<char>, t: seq<char>) {
    |t| == |s| && forall i {:trigger t[i]} :: 0 <= i < |s| ==> t[i] == s[i] || (t[i] == '\0' && !IsWord(s[i]))
  }

  lemma KeptSame(s: seq<char>)
    ensures Kept(s, s)
  {
  }

  lemma KeptTrans(s: seq<char>, t: seq<char>, u: seq<char>)
    requires Kept(s, t) && Kept(t, u)
    ensures Kept(s, u)
  {
    forall i | 0 <= i < |s| ensures u[i] == s[i] || (u[i] == '\0' && !IsWord(s[i])) {
      assert t[i] == s[i] || t[i] == '\0';
    }
  }

  /** The words end in NUL. */
  ghost predicate Ended(ws: multiset<Span>, t: seq<char>) { forall w :: w in ws ==> w.e < |t| && t[w.e] == '\0' }

  lemma EndedNone(t: seq<char>)
    ensures Ended(multiset([]), t)
  {
  }

  lemma EndedMore(ws: multiset<Span>, w: Span, s: seq<char>, t: seq<char>)
    requires Ended(ws, s) && Kept(s, t) && w.e < |t| && t[w.e] == '\0'
    ensures Ended(ws + multiset{w}, t)
  {
  }

  lemma EndedBoth(ws: multiset<Span>, vs: multiset<Span>, s: seq<char>, t: seq<char>)
    requires Ended(ws, s) && Kept(s, t) && Ended(vs, t)
    ensures Ended(ws + vs, t)
  {
  }

  lemma KeptString(s: seq<char>, t: seq<char>, n: nat, w: Span)
    requires Kept(s, t) && WordAt(s, n, w) && n < |s| && t[w.e] == '\0'
    ensures CString(t, w.q, s[w.q..w.e])
  {
    forall i | w.q <= i < w.e ensures t[i] == s[i] && s[i] != '\0' { assert IsWord(s[i]); }
    assert t[w.q..w.e] == s[w.q..w.e];
  }

  /** No tokens are left at the end of the line. */
  lemma EndLexes(s: seq<char>, n: nat, ts: seq<Token>)
    requires IsLineOf(s, n) && Lexes(s, n, n, n, ts)
    ensures ts == []
  {
    var e := LexHead(s, n, n, n, ts);
  }

  lemma Accepted(ts: seq<Token>)
    ensures (exists d :: IsLine(d, ts) && Limits(d)) <==> LineF(ts).Ok? && LineF(ts).rest == []
  {
    hide IsLine, Limits, LineF;
    if LineF(ts).Ok? && LineF(ts).rest == [] { AcceptsExactlyTheGrammar(LineF(ts).c, ts); }
    if d :| IsLine(d, ts) && Limits(d) { AcceptsExactlyTheGrammar(d, ts); }
  }

  class Parser {
    const buf: array<char>
    const es: nat
    var pos: nat // *ps

    ghost predicate Valid()
      reads this, buf
    {
      IsLineOf(buf[..], es) && pos <= es
    }

    constructor (line: array<char>, n: nat)
      requires IsLineOf(line[..], n)
      ensures Valid() && buf == line && es == n && pos == 0
    {
      buf, es, pos := line, n, 0;
    }

    /** Past the whitespace from s. */
    method Skip(s: nat) returns (t: nat)
      requires Valid() && s <= es
      ensures s <= t <= es && Blank(buf[..], s, t) && !IsSpace(buf[t])
    {
      t := s;
      while t < es && buf[t] in WHITESPACE
        invariant s <= t <= es && Blank(buf[..], s, t)
      {
        t := t + 1;
      }
    }

    /** The tokens from the cursor to the end of the line. */
    ghost predicate At(ts: seq<Token>)
      reads this, buf
    {
      Valid() && Lexes(buf[..], es, pos, es, ts)
    }

    /** gettoken: 'a' and the word, a symbol, or NUL at the end of the line. */
    method GetToken(ghost ts: seq<Token>) returns (ret: char, q: nat, eq: nat)
      requires At(ts)
      modifies `pos
      ensures pos >= old(pos) && (ts == [] <==> ret == '\0') && At(if ts == [] then [] else ts[1..])
      ensures ts != [] ==> pos > old(pos) && if ret == 'a' then ts[0] == Word(Span(q, eq)) else ts[0] == Sym(ret)
    {
      var s := Skip(pos);
      ghost var e := LexHead(buf[..], es, pos, s, ts);
      hide Lexes;
      q := s;
      ret := buf[s];
      ghost var t := Sym(ret);
      if buf[s] == '\0' {
      } else if buf[s] in ['|', '(', ')', ';', '&', '<'] {
        s := s + 1;
      } else if buf[s] == '>' {
        s := s + 1;
        if buf[s] == '>' {
          ret := '+';
          s := s + 1;
        }
        t := Sym(ret);
      } else {
        ret := 'a';
        while s < es && buf[s] !in WHITESPACE && buf[s] !in SYMBOLS
          invariant q <= s <= es && forall i :: q <= i < s ==> IsWord(buf[i])
        {
          s := s + 1;
        }
        t := Word(Span(q, s));
      }
      eq := s;
      if ts != [] { TokenUnique(buf[..], es, q, e, ts[0], eq, t); }
      s := Skip(s);
      LexSkip(buf[..], es, if ts == [] then pos else eq, s, if ts == [] then [] else ts[1..]);
      pos := s;
    }

    /** peek: the cursor moves to the next token; whether it starts with one of the symbols toks. */
    method Peek(toks: seq<char>, ghost ts: seq<Token>) returns (b: bool)
      requires At(ts) && forall c :: c in toks ==> c in SYMBOLS
      modifies `pos
      ensures pos >= old(pos) && At(ts) && (ts == [] ==> pos == es)
      ensures b <==> ts != [] && ts[0].Sym? && (if ts[0].c == '+' then '>' else ts[0].c) in toks
    {
      var s := Skip(pos);
      ghost var e := LexHead(buf[..], es, pos, s, ts);
      LexSkip(buf[..], es, pos, s, ts);
      if ts != [] { TokenStart(buf[..], es, s, e, ts[0]); }
      pos := s;
      b := buf[pos] != '\0' && buf[pos] in toks;
    }

    /** parseredirs. */
    method ParseRedirs(cmd: Cmd, ghost ts: seq<Token>) returns (ok: bool, c: Cmd, ghost rest: seq<Token>)
      requires At(ts)
      modifies `pos
      ensures pos >= old(pos) && Valid() && ok == RedirsF(cmd, ts).Ok?
      ensures ok ==> Ok(c, rest) == RedirsF(cmd, ts) && At(rest)
    {
      hide Lexes;
      c, rest := cmd, ts;
      while true
        invariant pos >= old(pos) && At(rest) && RedirsF(c, rest) == RedirsF(cmd, ts)
        decreases |rest|
      {
        var more := Peek(['<', '>'], rest);
        if !more { return true, c, rest; }
        var tok, q, eq := GetToken(rest);
        var tok2;
        tok2, q, eq := GetToken(rest[1..]);
        if tok2 != 'a' { return false, c, rest; }
        assert rest[1..][1..] == rest[2..];
        c, rest := Redir(c, Span(q, eq), ModeOf(tok), FdOf(tok)), rest[2..];
      }
    }

    /** parseline. */
    method ParseLine(ghost ts: seq<Token>) returns (ok: bool, c: Cmd, ghost rest: seq<Token>)
      requires At(ts)
      modifies `pos
      ensures pos >= old(pos) && Valid() && ok == LineF(ts).Ok?
      ensures ok ==> Ok(c, rest) == LineF(ts) && At(rest)
      decreases |ts|, 3
    {
      hide Lexes, PipeF;
      ok, c, rest := ParsePipe(ts);
      if !ok { return; }
      ghost var d, us := c, rest;
      while true
        invariant pos >= old(pos) && At(rest) && BacksF(c, rest) == BacksF(d, us) && |rest| <= |us|
        decreases |rest|
      {
        var back := Peek(['&'], rest);
        if !back { break; }
        var tok, q, eq := GetToken(rest);
        c, rest := Back(c), rest[1..];
      }
      var list := Peek([';'], rest);
      if list {
        var tok, q, eq := GetToken(rest);
        var right;
        ok, right, rest := ParseLine(rest[1..]);
        if !ok { return; }
        c := List(c, right);
      }
    }

    /** parsepipe. */
    method ParsePipe(ghost ts: seq<Token>) returns (ok: bool, c: Cmd, ghost rest: seq<Token>)
      requires At(ts)
      modifies `pos
      ensures pos >= old(pos) && Valid() && ok == PipeF(ts).Ok?
      ensures ok ==> Ok(c, rest) == PipeF(ts) && At(rest)
      decreases |ts|, 2
    {
      hide Lexes, ExecF;
      ok, c, rest := ParseExec(ts);
      if !ok { return; }
      var pipe := Peek(['|'], rest);
      if pipe {
        var tok, q, eq := GetToken(rest);
        var right;
        ok, right, rest := ParsePipe(rest[1..]);
        if !ok { return; }
        c := Pipe(c, right);
      }
    }

    /** parseblock. */
    method ParseBlock(ghost ts: seq<Token>) returns (ok: bool, c: Cmd, ghost rest: seq<Token>)
      requires At(ts)
      modifies `pos
      ensures pos >= old(pos) && Valid() && ok == (Starts(ts, '(') && ExecF(ts).Ok?)
      ensures ok ==> Ok(c, rest) == ExecF(ts) && At(rest)
      decreases |ts|, 0
    {
      hide Lexes, LineF, RedirsF;
      c, rest := Exec([]), ts;
      var open := Peek(['('], ts);
      if !open { return false, c, rest; }
      var tok, q, eq := GetToken(ts);
      ok, c, rest := ParseLine(ts[1..]);
      if !ok { return; }
      var close := Peek([')'], rest);
      if !close { return false, c, rest; }
      tok, q, eq := GetToken(rest);
      ok, c, rest := ParseRedirs(c, rest[1..]);
    }

    /** parseexec. */
    method ParseExec(ghost ts: seq<Token>) returns (ok: bool, c: Cmd, ghost rest: seq<Token>)
      requires At(ts)
      modifies `pos
      ensures pos >= old(pos) && Valid() && ok == ExecF(ts).Ok?
      ensures ok ==> Ok(c, rest) == ExecF(ts) && At(rest)
      decreases |ts|, 1
    {
      hide Lexes, LineF, RedirsF;
      var block := Peek(['('], ts);
      if block {
        ok, c, rest := ParseBlock(ts);
        return;
      }
      var argc := 0;
      ok, c, rest := ParseRedirs(Exec([]), ts);
      if !ok { return; }
      ghost var d, us := c, rest;
      while true
        invariant pos >= old(pos) && At(rest) && ok && argc < MAXARGS && ArgsF(c, argc, rest) == ArgsF(d, 0, us)
        decreases |rest|
      {
        var stop := Peek(['|', ')', '&', ';'], rest);
        if stop { break; }
        var tok, q, eq := GetToken(rest);
        if tok == '\0' { break; }
        if tok != 'a' { return false, c, rest; }
        c := AddArg(c, Span(q, eq));
        argc := argc + 1;
        if argc >= MAXARGS { return false, c, rest; }
        ghost var vs := rest;
        ok, c, rest := ParseRedirs(c, rest[1..]);
        if !ok { return; }
      }
    }

    /** parsecmd. It accepts the line exactly when the grammar derives some command from its tokens, within the
        limit on arguments, and returns that command; once it has terminated the words, each of
        them, read as a C string, is the word that was there. */
    method ParseCmd() returns (ok: bool, c: Cmd, ghost ts: seq<Token>)
      requires Valid() && pos == 0
      modifies `pos, buf
      ensures Lexes(old(buf[..]), es, 0, es, ts) && es <= buf.Length && WordsCover(old(buf[..]), es, ts)
      ensures ok <==> exists d :: IsLine(d, ts) && Limits(d)
      ensures ok ==> IsLine(c, ts) && Limits(c) && Words(c) == WordsIn(ts)
      ensures ok ==> forall w :: w in Words(c) ==> WordAt(old(buf[..]), es, w)
                                                   && CString(buf[..], w.q, old(buf[..])[w.q..w.e])
      ensures !ok ==> buf[..] == old(buf[..])
    {
      hide Lexes, IsLine, Limits, Words, WordsIn, LineF, WordsCover;
      ghost var s0 := buf[..];
      ts := LexExists(s0, es, 0);
      LexedWords(s0, es, ts);
      Accepted(ts);
      ghost var rest;
      ok, c, rest := ParseLine(ts);
      if !ok { return; }
      var any := Peek([], rest);
      if pos != es {
        ok := false;
        return;
      }
      EndLexes(s0, es, rest);
      AcceptsExactlyTheGrammar(c, ts);
      LineWords(c, ts);
      forall w | w in Words(c) ensures WordAt(s0, es, w) { ParsedWord(s0, es, c, ts, w); }
      NulTerminate(c, c, s0);
      forall w | w in Words(c) ensures CString(buf[..], w.q, s0[w.q..w.e]) { KeptString(s0, buf[..], es, w); }
    }

    /** *end = 0, for the end of a word of the command. */
    method PutNul(w: Span, ghost whole: Cmd, ghost s0: seq<char>)
      requires |s0| == buf.Length && WordsOfLine(s0, es, whole) && w in Words(whole) && Kept(s0, buf[..])
      modifies buf
      ensures Kept(s0, buf[..]) && Kept(old(buf[..]), buf[..]) && w.e < buf.Length && buf[w.e] == '\0'
    {
      assert WordAt(s0, es, w) && !IsWord(buf[..][w.e]);
      buf[w.e] := '\0';
    }

    /** nulterminate, on a part of the command `whole`: the ends of its words become NUL, and no
        character of a word of `whole` changes. */
    method NulTerminate(c: Cmd, ghost whole: Cmd, ghost s0: seq<char>)
      requires |s0| == buf.Length && Words(c) <= Words(whole) && WordsOfLine(s0, es, whole) && Kept(s0, buf[..])
      modifies buf
      ensures Kept(s0, buf[..]) && Kept(old(buf[..]), buf[..]) && Ended(Words(c), buf[..])
      decreases c
    {
      hide Kept, WordsOfLine, Ended;
      ghost var s1 := buf[..];
      KeptSame(s1);
      match c {
        case Exec(argv) =>
          var i := 0;
          EndedNone(s1);
          while i < |argv|
            invariant 0 <= i <= |argv| && Kept(s0, buf[..]) && Kept(s1, buf[..]) && Ended(multiset(argv[..i]), buf[..])
          {
            ghost var t := buf[..];
            assert argv[i] in Words(c);
            PutNul(argv[i], whole, s0);
            KeptTrans(s1, t, buf[..]);
            EndedMore(multiset(argv[..i]), argv[i], t, buf[..]);
            assert argv[..i + 1] == argv[..i] + [argv[i]];
            i := i + 1;
          }
          assert argv[..|argv|] == argv;
        case Redir(d, f, _, _) =>
          NulTerminate(d, whole, s0);
          ghost var t := buf[..];
          assert f in Words(c);
          PutNul(f, whole, s0);
          KeptTrans(s1, t, buf[..]);
          EndedMore(Words(d), f, t, buf[..]);
        case Pipe(l, r) =>
          NulTerminate(l, whole, s0);
          ghost var t := buf[..];
          NulTerminate(r, whole, s0);
          KeptTrans(s1, t, buf[..]);
          EndedBoth(Words(l), Words(r), t, buf[..]);
        case List(l, r) =>
          NulTerminate(l, whole, s0);
          ghost var t := buf[..];
          NulTerminate(r, whole, s0);
          KeptTrans(s1, t, buf[..]);
          EndedBoth(Words(l), Words(r), t, buf[..]);
        case Back(d) =>
          NulTerminate(d, whole, s0);
      }
    }
  }
}
