/** The command language of user/sh.c: its tokens, its grammar, and the words of a command. */
module ShellGrammar {

  const WHITESPACE := [' ', '\t', '\r', '\n', 11 as char] // " \t\r\n\v"
  const SYMBOLS := ['<', '|', '>', '&', ';', '(', ')']
  const MAXARGS: nat := 10

  predicate IsSpace(c: char) { c in WHITESPACE }

  /** A character of a word: neither whitespace, nor a symbol, nor the end of the line. */
  predicate IsWord(c: char) { c !in WHITESPACE && c !in SYMBOLS && c != '\0' }

  /** Positions q to e - 1 of the line. */
  datatype Span = Span(q: nat, e: nat)

  /** Tokens as gettoken returns them: 'a' with its span, or a symbol, '+' standing for ">>". */
  datatype Token = Word(span: Span) | Sym(c: char)

  /** struct cmd; argv and file with eargv and efile are spans. */
  datatype Cmd =
    | Exec(argv: seq<Span>)
    | Redir(cmd: Cmd, file: Span, mode: nat, fd: nat)
    | Pipe(left: Cmd, right: Cmd)
    | List(left: Cmd, right: Cmd)
    | Back(cmd: Cmd)

  const O_RDONLY: nat := 0
  const O_WRONLY: nat := 1
  const O_CREATE: nat := 0x200
  const O_TRUNC: nat := 0x400

  /** A line in its buffer: n characters other than NUL, then a NUL. */
  predicate IsLineOf(s: seq<char>, n: nat) {
    n < |s| && s[n] == '\0' && forall i :: 0 <= i < n ==> s[i] != '\0'
  }

  // Tokens.

  /** A word: all of a run of word characters to its right end. */
  predicate WordAt(s: seq<char>, n: nat, w: Span) {
    w.q < w.e <= n <= |s| && (forall i :: w.q <= i < w.e ==> IsWord(s[i])) && (w.e < |s| ==> !IsWord(s[w.e]))
  }

  predicate TokenAt(s: seq<char>, n: nat, q: nat, e: nat, t: Token) {
    match t
    case Word(w) => w == Span(q, e) && WordAt(s, n, w)
    case Sym(c) =>
      q < e <= n < |s| &&
      if c == '+' then e == q + 2 && s[q] == '>' && s[q + 1] == '>'
      else e == q + 1 && s[q] == c && c in SYMBOLS && (c == '>' ==> s[e] != '>')
  }

  /** What gettoken answers for a token that starts at position i. */
  function KindAt(s: seq<char>, i: nat): (c: char)
    requires i < |s|
  {
    if s[i] == '\0' then '\0'
    else if s[i] == '>' then (if i + 1 < |s| && s[i + 1] == '>' then '+' else '>')
    else if s[i] in SYMBOLS then s[i] else 'a'
  }

  predicate Blank(s: seq<char>, a: nat, b: nat) { a <= b <= |s| && forall i :: a <= i < b ==> IsSpace(s[i]) }

  /** Between positions a and b there are the tokens ts, and otherwise only whitespace. */
  ghost predicate Lexes(s: seq<char>, n: nat, a: nat, b: nat, ts: seq<Token>)
    decreases |ts|
  {
    if ts == [] then Blank(s, a, b)
    else exists q: nat, e: nat :: Blank(s, a, q) && TokenAt(s, n, q, e, ts[0]) && Lexes(s, n, e, b, ts[1..])
  }

  /** A token starts with a character that is not whitespace, which tells its kind and its end. */
  lemma TokenStart(s: seq<char>, n: nat, q: nat, e: nat, t: Token)
    requires IsLineOf(s, n) && TokenAt(s, n, q, e, t)
    ensures q < e <= n && !IsSpace(s[q]) && KindAt(s, q) == if t.Word? then 'a' else t.c
  {
  }

  lemma TokenUnique(s: seq<char>, n: nat, q: nat, e: nat, t: Token, f: nat, u: Token)
    requires IsLineOf(s, n) && TokenAt(s, n, q, e, t) && TokenAt(s, n, q, f, u)
    ensures t == u && e == f
  {
    TokenStart(s, n, q, e, t);
    TokenStart(s, n, q, f, u);
    assert t.Word? ==> !IsWord(s[e]) && !IsWord(s[f]);
  }

  /** After the whitespace comes the first token, or the end. */
  lemma LexHead(s: seq<char>, n: nat, a: nat, q: nat, ts: seq<Token>) returns (e: nat)
    requires IsLineOf(s, n) && Lexes(s, n, a, n, ts) && a <= q <= n && Blank(s, a, q) && !IsSpace(s[q])
    ensures ts == [] <==> q == n
    ensures ts != [] ==> TokenAt(s, n, q, e, ts[0]) && Lexes(s, n, e, n, ts[1..])
  {
    e := q;
    if ts != [] {
      var p: nat;
      p, e :| Blank(s, a, p) && TokenAt(s, n, p, e, ts[0]) && Lexes(s, n, e, n, ts[1..]);
      TokenStart(s, n, p, e, ts[0]);
    }
  }

  lemma LexSkip(s: seq<char>, n: nat, a: nat, b: nat, ts: seq<Token>)
    requires IsLineOf(s, n) && Lexes(s, n, a, n, ts) && a <= b <= n && Blank(s, a, b)
    ensures Lexes(s, n, b, n, ts)
  {
    if ts != [] {
      var q: nat, e: nat :| Blank(s, a, q) && TokenAt(s, n, q, e, ts[0]) && Lexes(s, n, e, n, ts[1..]);
      TokenStart(s, n, q, e, ts[0]);
      assert Blank(s, b, q);
    }
  }

  /** Every line is a sequence of tokens. */
  lemma {:induction false} LexExists(s: seq<char>, n: nat, a: nat) returns (ts: seq<Token>)
    requires IsLineOf(s, n) && a <= n
    ensures Lexes(s, n, a, n, ts)
    decreases n - a
  {
    if a == n {
      ts := [];
    } else if IsSpace(s[a]) {
      ts := LexExists(s, n, a + 1);
      if ts != [] {
        var q: nat, e: nat :| Blank(s, a + 1, q) && TokenAt(s, n, q, e, ts[0]) && Lexes(s, n, e, n, ts[1..]);
        assert Blank(s, a, q);
      }
    } else {
      var t, e := TokenExists(s, n, a);
      var us := LexExists(s, n, e);
      ts := [t] + us;
      assert ts[1..] == us && Blank(s, a, a);
    }
  }

  lemma TokenExists(s: seq<char>, n: nat, q: nat) returns (t: Token, e: nat)
    requires IsLineOf(s, n) && q < n && !IsSpace(s[q])
    ensures TokenAt(s, n, q, e, t) && e <= n
  {
    if s[q] in SYMBOLS {
      e := if KindAt(s, q) == '+' then q + 2 else q + 1;
      t := Sym(KindAt(s, q));
    } else {
      e := q;
      while e < n && IsWord(s[e])
        invariant q <= e <= n && forall i :: q <= i < e ==> IsWord(s[i])
      {
        e := e + 1;
      }
      t := Word(Span(q, e));
    }
  }

  lemma {:induction false} LexedTokens(s: seq<char>, n: nat, a: nat, b: nat, ts: seq<Token>, k: nat)
    requires Lexes(s, n, a, b, ts) && k < |ts|
    ensures ts[k].Word? ==> WordAt(s, n, ts[k].span) && a <= ts[k].span.q
    decreases |ts|
  {
    var q: nat, e: nat :| Blank(s, a, q) && TokenAt(s, n, q, e, ts[0]) && Lexes(s, n, e, b, ts[1..]);
    if k > 0 { LexedTokens(s, n, e, b, ts[1..], k - 1); }
  }

  /** Words come in order and do not overlap. */
  lemma {:induction false} LexedInOrder(s: seq<char>, n: nat, a: nat, b: nat, ts: seq<Token>, j: nat, k: nat)
    requires Lexes(s, n, a, b, ts) && j < k < |ts| && ts[j].Word? && ts[k].Word?
    ensures ts[j].span.e <= ts[k].span.q
    decreases |ts|
  {
    var q: nat, e: nat :| Blank(s, a, q) && TokenAt(s, n, q, e, ts[0]) && Lexes(s, n, e, b, ts[1..]);
    if j > 0 { LexedInOrder(s, n, e, b, ts[1..], j - 1, k - 1); } else { LexedTokens(s, n, e, b, ts[1..], k - 1); }
  }

  /** Every word character of the text is in a word. */
  lemma {:induction false} LexedCover(s: seq<char>, n: nat, a: nat, b: nat, ts: seq<Token>, i: nat) returns (k: nat)
    requires Lexes(s, n, a, b, ts) && a <= i < b <= |s| && IsWord(s[i])
    ensures k < |ts| && ts[k].Word? && ts[k].span.q <= i < ts[k].span.e
    decreases |ts|
  {
    var q: nat, e: nat :| Blank(s, a, q) && TokenAt(s, n, q, e, ts[0]) && Lexes(s, n, e, b, ts[1..]);
    if i < e {
      k := 0;
    } else {
      k := LexedCover(s, n, e, b, ts[1..], i);
      k := k + 1;
    }
  }

  /** The words of ts are in order, apart, and take in every word character. */
  ghost predicate WordsCover(s: seq<char>, n: nat, ts: seq<Token>)
    requires n <= |s|
  {
    && (forall j: nat, k: nat :: j < k < |ts| && ts[j].Word? && ts[k].Word? ==> ts[j].span.e <= ts[k].span.q)
    && (forall i: nat :: i < n && IsWord(s[i]) ==> exists k: nat :: k < |ts| && ts[k].Word?
                                                                    && ts[k].span.q <= i < ts[k].span.e)
  }

  lemma LexedWords(s: seq<char>, n: nat, ts: seq<Token>)
    requires Lexes(s, n, 0, n, ts) && n <= |s|
    ensures WordsCover(s, n, ts)
  {
    hide Lexes;
    forall j: nat, k: nat | j < k < |ts| && ts[j].Word? && ts[k].Word? ensures ts[j].span.e <= ts[k].span.q {
      LexedInOrder(s, n, 0, n, ts, j, k);
    }
    forall i: nat | i < n && IsWord(s[i])
      ensures exists k: nat :: k < |ts| && ts[k].Word? && ts[k].span.q <= i < ts[k].span.e
    {
      var _ := LexedCover(s, n, 0, n, ts, i);
    }
  }

  // Grammar.

  predicate IsRedirOp(t: Token) { t == Sym('<') || t == Sym('>') || t == Sym('+') }

  function ModeOf(op: char): (m: nat) {
    if op == '<' then O_RDONLY else if op == '>' then O_WRONLY + O_CREATE + O_TRUNC else O_WRONLY + O_CREATE
  }

  function FdOf(op: char): (fd: nat) { if op == '<' then 0 else 1 }

  /** c is base with the redirections ts around it, the last outermost. */
  ghost predicate IsRedirs(base: Cmd, c: Cmd, ts: seq<Token>)
    decreases |ts|
  {
    if ts == [] then c == base
    else |ts| >= 2 && IsRedirOp(ts[0]) && ts[1].Word? && IsRedirs(Redirected(base, ts[0].c, ts[1].span), c, ts[2..])
  }

  function Redirected(c: Cmd, op: char, w: Span): (r: Cmd) { Redir(c, w, ModeOf(op), FdOf(op)) }

  /** The exec command inside c gets one more argument. */
  function AddArg(c: Cmd, w: Span): (r: Cmd) {
    match c
    case Exec(argv) => Exec(argv + [w])
    case Redir(d, f, m, fd) => Redir(AddArg(d, w), f, m, fd)
    case _ => c
  }

  /** c is d with arguments and redirections ts, in any order. */
  ghost predicate SimpleFrom(d: Cmd, c: Cmd, ts: seq<Token>)
    decreases |ts|
  {
    if ts == [] then c == d
    else if ts[0].Word? then SimpleFrom(AddArg(d, ts[0].span), c, ts[1..])
    else |ts| >= 2 && IsRedirOp(ts[0]) && ts[1].Word? && SimpleFrom(Redirected(d, ts[0].c, ts[1].span), c, ts[2..])
  }

  /** simple := (word | redir)* */
  ghost predicate IsSimple(c: Cmd, ts: seq<Token>) { SimpleFrom(Exec([]), c, ts) }

  /** exec := '(' line ')' redirs | simple */
  ghost predicate IsExec(c: Cmd, ts: seq<Token>)
    decreases |ts|, 0
  {
    || IsSimple(c, ts)
    || exists i: nat, d :: 0 < i < |ts| && ts[0] == Sym('(') && ts[i] == Sym(')') && IsLine(d, ts[1..i])
                           && IsRedirs(d, c, ts[i + 1..])
  }

  /** pipe := exec | exec '|' pipe */
  ghost predicate IsPipe(c: Cmd, ts: seq<Token>)
    decreases |ts|, 1
  {
    || IsExec(c, ts)
    || (c.Pipe? && exists i: nat :: i < |ts| && ts[i] == Sym('|') && IsExec(c.left, ts[..i])
                                    && IsPipe(c.right, ts[i + 1..]))
  }

  /** jobs := pipe | jobs '&' */
  ghost predicate IsJobs(c: Cmd, ts: seq<Token>)
    decreases |ts|, 2
  {
    || IsPipe(c, ts)
    || (c.Back? && ts != [] && ts[|ts| - 1] == Sym('&') && IsJobs(c.cmd, ts[..|ts| - 1]))
  }

  /** line := jobs | jobs ';' line */
  ghost predicate IsLine(c: Cmd, ts: seq<Token>)
    decreases |ts|, 3
  {
    || IsJobs(c, ts)
    || (c.List? && exists i: nat :: i < |ts| && ts[i] == Sym(';') && IsJobs(c.left, ts[..i])
                                    && IsLine(c.right, ts[i + 1..]))
  }

  // The words of a command.

  function Words(c: Cmd): (m: multiset<Span>) {
    match c
    case Exec(argv) => multiset(argv)
    case Redir(d, f, _, _) => Words(d) + multiset{f}
    case Pipe(l, r) => Words(l) + Words(r)
    case List(l, r) => Words(l) + Words(r)
    case Back(d) => Words(d)
  }

  function WordsIn(ts: seq<Token>): (m: multiset<Span>) {
    if ts == [] then multiset{}
    else (if ts[0].Word? then multiset{ts[0].span} else multiset{}) + WordsIn(ts[1..])
  }

  lemma {:induction false} WordsJoin(ts: seq<Token>, us: seq<Token>)
    ensures WordsIn(ts + us) == WordsIn(ts) + WordsIn(us)
    decreases |ts|
  {
    if ts == [] {
      assert ts + us == us;
    } else {
      assert (ts + us)[1..] == ts[1..] + us;
      WordsJoin(ts[1..], us);
    }
  }

  lemma WordsSym(ts: seq<Token>, i: nat)
    requires i < |ts| && ts[i].Sym?
    ensures WordsIn(ts) == WordsIn(ts[..i]) + WordsIn(ts[i + 1..])
  {
    assert ts == ts[..i] + ts[i..] && ts[i..][1..] == ts[i + 1..];
    WordsJoin(ts[..i], ts[i..]);
  }

  /** Under its redirections, c is an exec command. */
  predicate HasExec(c: Cmd) { c.Exec? || (c.Redir? && HasExec(c.cmd)) }

  lemma HasExecAdds(c: Cmd, w: Span)
    requires HasExec(c)
    ensures HasExec(AddArg(c, w)) && Words(AddArg(c, w)) == Words(c) + multiset{w}
  {
    if c.Exec? { assert multiset(c.argv + [w]) == multiset(c.argv) + multiset{w}; } else { HasExecAdds(c.cmd, w); }
  }

  lemma WordsHead(ts: seq<Token>)
    ensures ts == [] ==> WordsIn(ts) == multiset{}
    ensures ts != [] && ts[0].Word? ==> WordsIn(ts) == multiset{ts[0].span} + WordsIn(ts[1..])
    ensures |ts| >= 2 && ts[0].Sym? && ts[1].Word? ==> WordsIn(ts) == multiset{ts[1].span} + WordsIn(ts[2..])
  {
    if |ts| >= 2 { assert ts[1..][1..] == ts[2..]; }
  }

  /** One token of a simple command. */
  lemma SimpleHead(d: Cmd, c: Cmd, us: seq<Token>)
    requires SimpleFrom(d, c, us)
    ensures us == [] ==> c == d
    ensures us != [] && us[0].Word? ==> SimpleFrom(AddArg(d, us[0].span), c, us[1..])
    ensures us != [] && !us[0].Word? ==> |us| >= 2 && IsRedirOp(us[0]) && us[1].Word?
                                         && SimpleFrom(Redirected(d, us[0].c, us[1].span), c, us[2..])
  {
  }

  lemma {:induction false} SimpleWords(d: Cmd, c: Cmd, ts: seq<Token>)
    requires SimpleFrom(d, c, ts) && HasExec(d)
    ensures HasExec(c) && Words(c) == Words(d) + WordsIn(ts)
    decreases |ts|
  {
    hide SimpleFrom, WordsIn, AddArg, HasExec;
    SimpleHead(d, c, ts);
    WordsHead(ts);
    if ts != [] {
      hide Words;
      if ts[0].Word? {
        HasExecAdds(d, ts[0].span);
        SimpleWords(AddArg(d, ts[0].span), c, ts[1..]);
        Regroup(Words(d), multiset{ts[0].span}, WordsIn(ts[1..]));
      } else {
        RedirectedWords(d, ts[0].c, ts[1].span);
        SimpleWords(Redirected(d, ts[0].c, ts[1].span), c, ts[2..]);
        Regroup(Words(d), multiset{ts[1].span}, WordsIn(ts[2..]));
      }
    }
  }

  lemma Regroup(a: multiset<Span>, b: multiset<Span>, c: multiset<Span>)
    ensures (a + b) + c == a + (b + c)
  {
  }

  lemma RedirectedWords(d: Cmd, op: char, w: Span)
    ensures Words(Redirected(d, op, w)) == Words(d) + multiset{w} && (HasExec(d) ==> HasExec(Redirected(d, op, w)))
  {
  }

  lemma {:induction false} RedirsWords(base: Cmd, c: Cmd, ts: seq<Token>)
    requires IsRedirs(base, c, ts)
    ensures Words(c) == Words(base) + WordsIn(ts)
    decreases |ts|
  {
    WordsHead(ts);
    if ts != [] {
      hide Words, WordsIn;
      RedirectedWords(base, ts[0].c, ts[1].span);
      RedirsWords(Redirected(base, ts[0].c, ts[1].span), c, ts[2..]);
      Regroup(Words(base), multiset{ts[1].span}, WordsIn(ts[2..]));
    }
  }

  lemma {:induction false} ExecWords(c: Cmd, ts: seq<Token>)
    requires IsExec(c, ts)
    ensures Words(c) == WordsIn(ts)
    decreases |ts|, 0
  {
    if IsSimple(c, ts) {
      SimpleWords(Exec([]), c, ts);
    } else {
      var i: nat, d :| 0 < i < |ts| && ts[0] == Sym('(') && ts[i] == Sym(')') && IsLine(d, ts[1..i])
      && IsRedirs(d, c, ts[i + 1..]);
      hide IsLine, SimpleFrom, IsRedirs;
      LineWords(d, ts[1..i]);
      RedirsWords(d, c, ts[i + 1..]);
      WordsSym(ts, i);
      assert ts[..i][1..] == ts[1..i];
    }
  }

  lemma {:induction false} PipeWords(c: Cmd, ts: seq<Token>)
    requires IsPipe(c, ts)
    ensures Words(c) == WordsIn(ts)
    decreases |ts|, 1
  {
    if IsExec(c, ts) {
      ExecWords(c, ts);
    } else {
      var i: nat :| i < |ts| && ts[i] == Sym('|') && IsExec(c.left, ts[..i]) && IsPipe(c.right, ts[i + 1..]);
      ExecWords(c.left, ts[..i]);
      PipeWords(c.right, ts[i + 1..]);
      WordsSym(ts, i);
    }
  }

  lemma {:induction false} JobsWords(c: Cmd, ts: seq<Token>)
    requires IsJobs(c, ts)
    ensures Words(c) == WordsIn(ts)
    decreases |ts|, 2
  {
    if IsPipe(c, ts) {
      PipeWords(c, ts);
    } else {
      JobsWords(c.cmd, ts[..|ts| - 1]);
      WordsSym(ts, |ts| - 1);
    }
  }

  /** Every word of the line is in the command it parses to, once. */
  lemma {:induction false} LineWords(c: Cmd, ts: seq<Token>)
    requires IsLine(c, ts)
    ensures Words(c) == WordsIn(ts)
    decreases |ts|, 3
  {
    if IsJobs(c, ts) {
      JobsWords(c, ts);
    } else {
      var i: nat :| i < |ts| && ts[i] == Sym(';') && IsJobs(c.left, ts[..i]) && IsLine(c.right, ts[i + 1..]);
      JobsWords(c.left, ts[..i]);
      LineWords(c.right, ts[i + 1..]);
      WordsSym(ts, i);
    }
  }

  lemma {:induction false} WordIsToken(ts: seq<Token>, w: Span)
    requires w in WordsIn(ts)
    ensures Word(w) in ts
  {
    if ts != [] && !(ts[0] == Word(w)) {
      WordIsToken(ts[1..], w);
      assert forall t :: t in ts[1..] ==> t in ts;
    }
  }

  /** The words of a parsed line are whole words of its text. */
  lemma ParsedWord(s: seq<char>, n: nat, c: Cmd, ts: seq<Token>, w: Span)
    requires Lexes(s, n, 0, n, ts) && IsLine(c, ts) && w in Words(c)
    ensures WordAt(s, n, w)
  {
    LineWords(c, ts);
    WordIsToken(ts, w);
    var k :| 0 <= k < |ts| && ts[k] == Word(w);
    LexedTokens(s, n, 0, n, ts, k);
  }
}
