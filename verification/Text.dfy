/** The string operations the parsers are built from, with one fixed notion of
    whitespace and the newline as the only line break. */
module Text {
  import opened Std

  predicate IsSpace(c: char) {
    c == ' ' || c == '\t' || c == '\r' || c == '\n'
  }

  predicate Blank(s: string) {
    forall c <- s :: IsSpace(c)
  }

  /** A field: not empty, and free of whitespace. */
  predicate IsField(s: string) {
    s != "" && forall c <- s :: !IsSpace(c)
  }

  predicate OneLine(s: string) {
    '\n' !in s
  }

  // ----- stripping -----

  function StripLeft(s: string): string {
    if s != "" && IsSpace(s[0]) then StripLeft(s[1..]) else s
  }

  function StripRight(s: string): string {
    if s != "" && IsSpace(s[|s| - 1]) then StripRight(s[..|s| - 1]) else s
  }

  function Strip(s: string): string {
    StripRight(StripLeft(s))
  }

  /** No whitespace at either end. */
  predicate Stripped(s: string) {
    s == "" || (!IsSpace(s[0]) && !IsSpace(s[|s| - 1]))
  }

  /** Stripping cuts whitespace off both ends, and all of it. */
  lemma StripCuts(s: string) returns (l: string, r: string)
    ensures s == l + Strip(s) + r && Blank(l) && Blank(r) && Stripped(Strip(s))
  {
    l := StripLeftCuts(s);
    r := StripRightCuts(StripLeft(s));
    assert s == l + (Strip(s) + r);
    if Strip(s) != "" { assert Strip(s)[0] == StripLeft(s)[0]; }
  }

  lemma {:induction false} StripLeftCuts(s: string) returns (l: string)
    ensures s == l + StripLeft(s) && Blank(l)
    ensures StripLeft(s) != "" ==> !IsSpace(StripLeft(s)[0])
  {
    l := "";
    if s != "" && IsSpace(s[0]) {
      var m := StripLeftCuts(s[1..]);
      l := [s[0]] + m;
    }
  }

  lemma {:induction false} StripRightCuts(s: string) returns (r: string)
    ensures s == StripRight(s) + r && Blank(r)
    ensures StripRight(s) != "" ==> !IsSpace(StripRight(s)[|StripRight(s)| - 1])
  {
    r := "";
    if s != "" && IsSpace(s[|s| - 1]) {
      var m := StripRightCuts(s[..|s| - 1]);
      r := m + [s[|s| - 1]];
      assert s == s[..|s| - 1] + [s[|s| - 1]];
    }
  }

  /** The cut is the only one: whitespace around a stripped text goes, the text stays. */
  lemma StripOf(l: string, t: string, r: string)
    requires Blank(l) && Blank(r) && Stripped(t)
    ensures Strip(l + t + r) == t
  {
    if t == "" {
      StripLeftBlank(l + t + r);
    } else {
      StripLeftOf(l, t + r);
      assert l + t + r == l + (t + r);
      StripRightOf(t, r);
    }
  }

  lemma {:induction false} StripLeftBlank(s: string)
    requires Blank(s)
    ensures StripLeft(s) == ""
  {
    if s != "" { StripLeftBlank(s[1..]); }
  }

  lemma {:induction false} StripLeftOf(l: string, t: string)
    requires Blank(l) && t != "" && !IsSpace(t[0])
    ensures StripLeft(l + t) == t
  {
    if l == "" {
      assert l + t == t;
    } else {
      StripLeftOf(l[1..], t);
      assert (l + t)[1..] == l[1..] + t;
    }
  }

  lemma {:induction false} StripRightOf(t: string, r: string)
    requires Blank(r) && t != "" && !IsSpace(t[|t| - 1])
    ensures StripRight(t + r) == t
  {
    if r == "" {
      assert t + r == t;
    } else {
      StripRightOf(t, r[..|r| - 1]);
      assert (t + r)[..|t + r| - 1] == t + r[..|r| - 1];
    }
  }

  lemma StrippedStays(s: string)
    requires Stripped(s)
    ensures Strip(s) == s
  {
  }

  // ----- searching -----

  predicate MatchesAt(s: string, sep: string, i: nat) {
    i + |sep| <= |s| && forall k | 0 <= k < |sep| :: s[i + k] == sep[k]
  }

  /** The first position of `sep`. */
  function Find(s: string, sep: string): (r: Option<nat>)
    ensures r.Some? ==> MatchesAt(s, sep, r.value)
  {
    if MatchesAt(s, sep, 0) then Some(0)
    else if s == "" then None
    else match Find(s[1..], sep)
      case None => None
      case Some(i) => Some(i + 1)
  }

  /** The found position is the first match, and nothing is found iff there is none. */
  lemma {:induction false} FindIsFirst(s: string, sep: string, i: nat)
    ensures MatchesAt(s, sep, i) ==> Find(s, sep).Some? && Find(s, sep).value <= i
  {
    if s != "" && !MatchesAt(s, sep, 0) && MatchesAt(s, sep, i) {
      FindIsFirst(s[1..], sep, i - 1);
    }
  }

  lemma FindAt(s: string, sep: string, i: nat)
    requires MatchesAt(s, sep, i) && forall j | 0 <= j < i :: !MatchesAt(s, sep, j)
    ensures Find(s, sep) == Some(i)
  {
    FindIsFirst(s, sep, i);
  }

  // ----- fields -----

  function FieldEnd(s: string): (n: nat)
    ensures n <= |s| && (forall i | 0 <= i < n :: !IsSpace(s[i])) && (n < |s| ==> IsSpace(s[n]))
  {
    if s == "" || IsSpace(s[0]) then 0 else 1 + FieldEnd(s[1..])
  }

  /** The whitespace-separated fields. */
  function Fields(s: string): (fs: seq<string>)
    ensures forall f <- fs :: IsField(f)
  {
    if s == "" then []
    else if IsSpace(s[0]) then Fields(s[1..])
    else [s[..FieldEnd(s)]] + Fields(s[FieldEnd(s)..])
  }

  lemma FieldsOfOne(f: string)
    requires IsField(f)
    ensures Fields(f) == [f]
  {
    assert FieldEnd(f) == |f|;
    assert f[..|f|] == f && f[|f|..] == "";
  }

  lemma FieldsOfMore(f: string, rest: string)
    requires IsField(f)
    ensures Fields(f + " " + rest) == [f] + Fields(rest)
  {
    var s := f + " " + rest;
    assert s[|f|] == ' ';
    assert FieldEnd(s) == |f| by {
      assert forall i | 0 <= i < |f| :: s[i] == f[i];
    }
    assert s[..|f|] == f && s[|f|..] == " " + rest && (" " + rest)[1..] == rest;
  }

  // ----- lines -----

  function LineEnd(s: string): (n: nat)
    ensures n <= |s| && OneLine(s[..n]) && (n < |s| ==> s[n] == '\n')
  {
    if s == "" || s[0] == '\n' then 0 else 1 + LineEnd(s[1..])
  }

  /** The lines of a text; a final newline ends the last line and starts none. */
  function SplitLines(s: string): (ls: seq<string>)
    ensures forall l <- ls :: OneLine(l)
  {
    if s == "" then []
    else
      var n := LineEnd(s);
      [s[..n]] + SplitLines(s[if n < |s| then n + 1 else n..])
  }

  lemma {:induction false} LineEndAt(s: string, n: nat)
    requires n < |s| && s[n] == '\n' && OneLine(s[..n])
    ensures LineEnd(s) == n
  {
  }

  lemma LinesOfFirst(line: string, rest: string)
    requires OneLine(line)
    ensures SplitLines(line + "\n" + rest) == [line] + SplitLines(rest)
  {
    var s, n := line + "\n" + rest, |line|;
    assert s[n] == '\n' && s[..n] == line && s[n + 1..] == rest;
    LineEndAt(s, n);
  }

  /** The empty line that a newline after `a` makes, if it makes one. */
  function Gap(a: string): seq<string> {
    if a == "" || a[|a| - 1] == '\n' then [""] else []
  }

  /** The lines of two texts with a newline between them. */
  lemma {:induction false} LinesOfTwo(a: string, b: string)
    ensures SplitLines(a + "\n" + b) == SplitLines(a) + Gap(a) + SplitLines(b)
  {
    var n := LineEnd(a);
    if n == |a| {
      assert a[..n] == a;
      LinesOfFirst(a, b);
      if a != "" {
        LinesOfOne(a);
        assert a[|a| - 1] in a;
      }
    } else {
      assert a == a[..n] + "\n" + a[n + 1..];
      LinesOfTwo(a[n + 1..], b);
      OneMoreLine(a[..n], a[n + 1..], b);
    }
  }

  lemma OneMoreLine(line: string, rest: string, b: string)
    requires OneLine(line)
    requires SplitLines(rest + "\n" + b) == SplitLines(rest) + Gap(rest) + SplitLines(b)
    ensures var a := line + "\n" + rest; SplitLines(a + "\n" + b) == SplitLines(a) + Gap(a) + SplitLines(b)
  {
    hide SplitLines;
    var a := line + "\n" + rest;
    assert a + "\n" + b == line + "\n" + (rest + "\n" + b);
    LinesOfFirst(line, rest + "\n" + b);
    LinesOfFirst(line, rest);
    assert Gap(a) == Gap(rest) by {
      assert a[|a| - 1] == if rest == "" then '\n' else rest[|rest| - 1];
    }
  }

  lemma FieldIsOneLine(f: string)
    requires IsField(f)
    ensures OneLine(f)
  {
  }

  lemma LinesOfOne(a: string)
    requires OneLine(a) && a != ""
    ensures SplitLines(a) == [a]
  {
    assert LineEnd(a) == |a|;
    assert a[..|a|] == a && a[|a|..] == "";
  }
}
