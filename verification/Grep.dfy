/** The regular expressions of user/grep.c: what a pattern means, and that the matcher finds exactly
    that. Strings are C strings without their terminating NUL. */
module Grep {

  /** A pattern is a sequence of items: one character, or any number of a character. */
  datatype Item = One(c: char) | Star(c: char)

  /** Items, and whether a final `$` ties their end to the end of the text. */
  datatype Pattern = Pattern(items: seq<Item>, atEnd: bool)

  /** `*` stars the character before it; `$` is special only at the very end. */
  function Parse(re: string): (p: Pattern)
    ensures |p.items| <= |re|
  {
    if re == "" then Pattern([], false)
    else if |re| >= 2 && re[1] == '*' then
      var p := Parse(re[2..]); Pattern([Star(re[0])] + p.items, p.atEnd)
    else if re == "$" then Pattern([], true)
    else var p := Parse(re[1..]); Pattern([One(re[0])] + p.items, p.atEnd)
  }

  predicate Hit(c: char, x: char) { c == '.' || c == x }

  /** The strings an item stands for. */
  predicate InItem(it: Item, s: string) {
    match it
    case One(c) => |s| == 1 && Hit(c, s[0])
    case Star(c) => forall k :: 0 <= k < |s| ==> Hit(c, s[k])
  }

  function Join(parts: seq<string>): (s: string) { if parts == [] then "" else parts[0] + Join(parts[1..]) }

  /** s is made of one string of each item, in order. */
  ghost predicate Made(items: seq<Item>, parts: seq<string>, s: string) {
    |parts| == |items| && Join(parts) == s && forall k :: 0 <= k < |items| ==> InItem(items[k], parts[k])
  }

  ghost predicate Denotes(items: seq<Item>, s: string) { exists parts :: Made(items, parts, s) }

  /** The pattern matches at the start of the text. */
  ghost predicate Here(p: Pattern, text: string) {
    exists n: nat {:trigger text[..n]} :: n <= |text| && Denotes(p.items, text[..n]) && (p.atEnd ==> n == |text|)
  }

  /** What grep promises: with a leading `^` the rest matches at the start, otherwise somewhere. */
  ghost predicate Means(re: string, text: string) {
    if re != "" && re[0] == '^' then Here(Parse(re[1..]), text)
    else exists i: nat {:trigger text[i..]} :: i <= |text| && Here(Parse(re), text[i..])
  }

  // What Denotes says of the first item.

  lemma DenotesNone(s: string)
    ensures Denotes([], s) <==> s == ""
  {
    if s == "" { assert Made([], [], s); }
    if Denotes([], s) { var parts :| Made([], parts, s); }
  }

  lemma DenotesFirst(it: Item, rest: seq<Item>, s: string, n: nat)
    requires n <= |s| && InItem(it, s[..n]) && Denotes(rest, s[n..])
    ensures Denotes([it] + rest, s)
  {
    var parts :| Made(rest, parts, s[n..]);
    assert ([s[..n]] + parts)[1..] == parts;
    assert Made([it] + rest, [s[..n]] + parts, s);
  }

  lemma FirstOfDenotes(it: Item, rest: seq<Item>, s: string) returns (n: nat)
    requires Denotes([it] + rest, s)
    ensures n <= |s| && InItem(it, s[..n]) && Denotes(rest, s[n..])
  {
    var items := [it] + rest;
    var parts :| Made(items, parts, s);
    n := |parts[0]|;
    assert s == parts[0] + Join(parts[1..]) && s[..n] == parts[0] && s[n..] == Join(parts[1..]);
    assert InItem(items[0], parts[0]);
    assert Made(rest, parts[1..], s[n..]) by {
      forall k | 0 <= k < |rest| ensures InItem(rest[k], parts[1..][k]) { assert InItem(items[k + 1], parts[k + 1]); }
    }
  }

  // What Here says, place by place of the pattern.

  lemma HereEnd(atEnd: bool, text: string)
    ensures Here(Pattern([], atEnd), text) <==> (atEnd ==> text == "")
  {
    forall n: nat | n <= |text| ensures Denotes([], text[..n]) <==> n == 0 { DenotesNone(text[..n]); }
    if atEnd ==> text == "" { assert text[..0] == "" && Denotes(Pattern([], atEnd).items, text[..0]); }
    if Here(Pattern([], atEnd), text) {
      var n: nat :| n <= |text| && Denotes([], text[..n]) && (atEnd ==> n == |text|);
    }
  }

  lemma HereOne(c: char, p: Pattern, text: string)
    ensures Here(Pattern([One(c)] + p.items, p.atEnd), text) <==> text != "" && Hit(c, text[0]) && Here(p, text[1..])
  {
    var q := Pattern([One(c)] + p.items, p.atEnd);
    if Here(q, text) {
      var n: nat :| n <= |text| && Denotes(q.items, text[..n]) && (q.atEnd ==> n == |text|);
      var m := FirstOfDenotes(One(c), p.items, text[..n]);
      assert text[..n][1..] == text[1..][..n - 1];
    }
    if text != "" && Hit(c, text[0]) && Here(p, text[1..]) {
      var n: nat :| n <= |text[1..]| && Denotes(p.items, text[1..][..n]) && (p.atEnd ==> n == |text[1..]|);
      assert text[..n + 1][1..] == text[1..][..n] && text[..n + 1][..1] == [text[0]];
      DenotesFirst(One(c), p.items, text[..n + 1], 1);
    }
  }

  lemma SliceFacts(text: string, n: nat, m: nat)
    requires 0 < m <= n <= |text|
    ensures text[..n][..m][0] == text[0]
    ensures text[1..][..n - 1][..m - 1] == text[..n][..m][1..] && text[1..][..n - 1][m - 1..] == text[..n][m..]
  {
    assert text[1..][..n - 1] == text[1..n];
    assert text[..n][..m] == text[..m];
    assert text[1..n][..m - 1] == text[1..m] == text[..m][1..];
    assert text[1..n][m - 1..] == text[m..n] == text[..n][m..];
  }

  /** A starred item takes nothing, or a character and itself again. */
  lemma HereStar(c: char, p: Pattern, text: string)
    ensures Here(Pattern([Star(c)] + p.items, p.atEnd), text) <==>
            Here(p, text) || (text != "" && Hit(c, text[0]) && Here(Pattern([Star(c)] + p.items, p.atEnd), text[1..]))
  {
    var q := Pattern([Star(c)] + p.items, p.atEnd);
    if Here(q, text) {
      var n: nat :| n <= |text| && Denotes(q.items, text[..n]) && (q.atEnd ==> n == |text|);
      var m := FirstOfDenotes(Star(c), p.items, text[..n]);
      if m == 0 {
        assert text[..n][0..] == text[..n];
      } else {
        var t := text[1..][..n - 1];
        SliceFacts(text, n, m);
        DenotesFirst(Star(c), p.items, t, m - 1);
        assert Here(q, text[1..]);
      }
    }
    if Here(p, text) {
      var n: nat :| n <= |text| && Denotes(p.items, text[..n]) && (p.atEnd ==> n == |text|);
      assert text[..n][..0] == "" && text[..n][0..] == text[..n];
      DenotesFirst(Star(c), p.items, text[..n], 0);
    }
    if text != "" && Hit(c, text[0]) && Here(q, text[1..]) { HereStarTakes(c, p, text); }
  }

  lemma HereStarTakes(c: char, p: Pattern, text: string)
    requires text != "" && Hit(c, text[0]) && Here(Pattern([Star(c)] + p.items, p.atEnd), text[1..])
    ensures Here(Pattern([Star(c)] + p.items, p.atEnd), text)
  {
    var q := Pattern([Star(c)] + p.items, p.atEnd);
    var rest := text[1..];
    var n: nat :| n <= |rest| && Denotes(q.items, rest[..n]) && (q.atEnd ==> n == |rest|);
    var m := FirstOfDenotes(Star(c), p.items, rest[..n]);
    var t := text[..n + 1];
    assert t[m + 1..] == rest[..n][m..];
    var u := t[..m + 1];
    forall k | 0 <= k < |u| ensures Hit(c, u[k]) { if k > 0 { assert u[k] == rest[..n][..m][k - 1]; } }
    DenotesFirst(Star(c), p.items, t, m + 1);
  }

  // The matcher.

  /** match. */
  method Match(re: string, text: string) returns (b: bool)
    ensures b <==> Means(re, text)
  {
    if re != "" && re[0] == '^' {
      b := MatchHere(re[1..], text);
      return;
    }
    var i := 0;
    while true
      invariant 0 <= i <= |text| && forall j: nat {:trigger text[j..]} :: j < i ==> !Here(Parse(re), text[j..])
      decreases |text| - i
    {
      b := MatchHere(re, text[i..]);
      if b { return; }
      if i == |text| { break; }
      i := i + 1;
    }
    b := false;
  }

  /** matchhere. */
  method MatchHere(re: string, text: string) returns (b: bool)
    ensures b <==> Here(Parse(re), text)
    decreases |re|, 0
  {
    if re == "" {
      HereEnd(false, text);
      return true;
    }
    if |re| >= 2 && re[1] == '*' {
      b := MatchStar(re[0], re[2..], text);
      return;
    }
    if re == "$" {
      HereEnd(true, text);
      return text == "";
    }
    HereOne(re[0], Parse(re[1..]), text);
    if text != "" && (re[0] == '.' || re[0] == text[0]) {
      b := MatchHere(re[1..], text[1..]);
      return;
    }
    b := false;
  }

  /** matchstar. */
  method MatchStar(c: char, re: string, text: string) returns (b: bool)
    ensures b <==> Here(Pattern([Star(c)] + Parse(re).items, Parse(re).atEnd), text)
    decreases |re|, 1
  {
    ghost var p := Parse(re);
    ghost var q := Pattern([Star(c)] + p.items, p.atEnd);
    var i := 0;
    assert text[0..] == text;
    while true
      invariant 0 <= i <= |text| && (Here(q, text) <==> Here(q, text[i..]))
      decreases |text| - i
    {
      b := MatchHere(re, text[i..]);
      HereStar(c, p, text[i..]);
      if b { return; }
      if i == |text| { break; }
      assert text[i..][1..] == text[i + 1..];
      i := i + 1;
      if !(text[i - 1] == c || c == '.') { break; }
    }
    b := false;
  }
}
