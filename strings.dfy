/** The Python string operations the driver relies on, on `seq<char>`. */
module Strings {

  predicate StartsWith(s: string, prefix: string) {
    |prefix| <= |s| && s[..|prefix|] == prefix
  }

  /** ASCII lower-casing of one character. */
  function LowerChar(c: char): char {
    if 'A' <= c <= 'Z' then (c as int - 'A' as int + 'a' as int) as char else c
  }

  /** `str.lower()`, restricted to ASCII letters. */
  function Lower(s: string): (r: string)
    ensures |r| == |s|
    ensures forall i :: 0 <= i < |s| ==> r[i] == LowerChar(s[i])
  {
    seq(|s|, i requires 0 <= i < |s| => LowerChar(s[i]))
  }

  /** The line boundaries recognised by `str.splitlines()`. */
  predicate IsLineBreak(c: char) {
    c == '\n' || c == '\r' || c == '\U{B}' || c == '\U{C}' || c == '\U{1C}' || c == '\U{1D}'
    || c == '\U{1E}' || c == '\U{85}' || c == '\U{2028}' || c == '\U{2029}'
  }

  predicate NoBreaks(s: string) {
    forall j :: 0 <= j < |s| ==> !IsLineBreak(s[j])
  }

  /** Index of the first line boundary in `s`, or `|s|` when there is none. */
  function BreakIndex(s: string): (i: nat)
    ensures i <= |s|
    ensures forall j :: 0 <= j < i ==> !IsLineBreak(s[j])
    ensures i < |s| ==> IsLineBreak(s[i])
  {
    if s == [] || IsLineBreak(s[0]) then 0 else 1 + BreakIndex(s[1..])
  }

  /**
   * `str.splitlines()`: the lines of `s` without their boundaries; "\r\n" counts as one
   * boundary, and a boundary at the very end does not start an empty last line.
   */
  function SplitLines(s: string): (lines: seq<string>)
    ensures forall k, j :: 0 <= k < |lines| && 0 <= j < |lines[k]| ==> !IsLineBreak(lines[k][j])
    ensures NoBreaks(s) ==> lines == (if s == [] then [] else [s])
    decreases |s|
  {
    var i := BreakIndex(s);
    if i == |s| then
      (if s == [] then [] else [s])
    else
      [s[..i]] + SplitLines(s[i + BreakLength(s, i)..])
  }

  /** Reference definition: the characters of `s` that are not line boundaries. */
  function WithoutBreaks(s: string): string {
    if s == [] then [] else (if IsLineBreak(s[0]) then [] else [s[0]]) + WithoutBreaks(s[1..])
  }

  function Concat(lines: seq<string>): string {
    if lines == [] then [] else lines[0] + Concat(lines[1..])
  }

  lemma {:induction false} WithoutBreaksAppend(a: string, b: string)
    ensures WithoutBreaks(a + b) == WithoutBreaks(a) + WithoutBreaks(b)
    decreases |a|
  {
    if a == [] {
      assert a + b == b;
    } else {
      assert (a + b)[1..] == a[1..] + b;
      WithoutBreaksAppend(a[1..], b);
    }
  }

  lemma {:induction false} WithoutBreaksOfLine(s: string)
    requires NoBreaks(s)
    ensures WithoutBreaks(s) == s
    decreases |s|
  {
    if s != [] {
      WithoutBreaksOfLine(s[1..]);
    }
  }

  /** The boundary that ends the first line: one character, or two for "\r\n". */
  function BreakLength(s: string, i: nat): nat
    requires i < |s|
  {
    if s[i] == '\r' && i + 1 < |s| && s[i + 1] == '\n' then 2 else 1
  }

  lemma BoundaryHasNoText(s: string, i: nat)
    requires i < |s| && IsLineBreak(s[i])
    requires i + BreakLength(s, i) <= |s|
    ensures WithoutBreaks(s[i..i + BreakLength(s, i)]) == []
  {
    var b := s[i..i + BreakLength(s, i)];
    assert b[0] == s[i];
    if BreakLength(s, i) == 2 {
      assert b[1..] == [s[i + 1]] && IsLineBreak(s[i + 1]);
      assert WithoutBreaks(b[1..]) == [] + WithoutBreaks(b[1..][1..]);
      assert b[1..][1..] == [];
    } else {
      assert b[1..] == [];
    }
  }

  lemma ConcatCons(line: string, tail: seq<string>)
    ensures Concat([line] + tail) == line + Concat(tail)
  {
    assert ([line] + tail)[1..] == tail;
  }

  lemma JoinLineParts(line: string, gap: string, rest: string, text: string)
    requires WithoutBreaks(line) == line && WithoutBreaks(gap) == []
    requires WithoutBreaks(rest) == text
    ensures WithoutBreaks(line + gap + rest) == line + text
  {
    WithoutBreaksAppend(line + gap, rest);
    WithoutBreaksAppend(line, gap);
    assert line + [] == line;
  }

  lemma ThreeParts(s: string, i: nat, j: nat)
    requires i <= j <= |s|
    ensures s == s[..i] + s[i..j] + s[j..]
  {
  }

  /** Splitting into lines loses exactly the line boundaries and nothing else. */
  lemma {:induction false} SplitLinesKeepsText(s: string)
    ensures Concat(SplitLines(s)) == WithoutBreaks(s)
    decreases |s|
  {
    var i := BreakIndex(s);
    if i == |s| {
      if s != [] {
        assert s[..i] == s;
        WithoutBreaksOfLine(s);
        ConcatCons(s, []);
      }
    } else {
      var rest := s[i + BreakLength(s, i)..];
      SplitLinesKeepsText(rest);
      SplitLinesStep(s, i, rest);
    }
  }

  /** The first line and its boundary contribute the line's own text. */
  lemma SplitLinesStep(s: string, i: nat, rest: string)
    requires i == BreakIndex(s) < |s| && rest == s[i + BreakLength(s, i)..]
    requires Concat(SplitLines(rest)) == WithoutBreaks(rest)
    ensures Concat(SplitLines(s)) == WithoutBreaks(s)
  {
    var next := i + BreakLength(s, i);
    var line := s[..i];
    assert SplitLines(s) == [line] + SplitLines(rest);
    ConcatCons(line, SplitLines(rest));
    WithoutBreaksOfLine(line);
    BoundaryHasNoText(s, i);
    JoinLineParts(line, s[i..next], rest, Concat(SplitLines(rest)));
    ThreeParts(s, i, next);
  }

  /**
   * `s.partition(sep)`: the text before the first `sep`, whether `sep` occurs, and the
   * text after it; `(s, false, "")` when `sep` does not occur.
   */
  function Partition(s: string, sep: char): (r: (string, bool, string))
    ensures r.1 <==> sep in s
    ensures sep !in r.0
    ensures r.1 ==> s == r.0 + [sep] + r.2
    ensures !r.1 ==> r.0 == s && r.2 == []
  {
    if s == [] then (s, false, [])
    else if s[0] == sep then ([], true, s[1..])
    else
      var (head, found, tail) := Partition(s[1..], sep);
      assert s == [s[0]] + s[1..];
      ([s[0]] + head, found, tail)
  }

  /** `s.split(sep)[-1]`: the text after the last `sep`, or all of `s` when there is none. */
  function AfterLast(s: string, sep: char): (r: string)
    ensures sep !in r
    ensures |r| <= |s| && r == s[|s| - |r|..]
    ensures |r| < |s| ==> s[|s| - |r| - 1] == sep
    ensures sep !in s ==> r == s
  {
    if s == [] then []
    else if s[|s| - 1] == sep then []
    else
      var r := AfterLast(s[..|s| - 1], sep) + [s[|s| - 1]];
      assert s == s[..|s| - 1] + [s[|s| - 1]];
      r
  }

  /** The text after the last `sep` is the piece that follows a `sep`-terminated prefix. */
  lemma {:induction false} AfterLastOfSuffix(p: string, n: string, sep: char)
    requires |p| > 0 && p[|p| - 1] == sep && sep !in n
    ensures AfterLast(p + n, sep) == n
    decreases |n|
  {
    if n == [] {
      assert p + n == p;
    } else {
      var s := p + n;
      assert s[..|s| - 1] == p + n[..|n| - 1];
      AfterLastOfSuffix(p, n[..|n| - 1], sep);
      assert n == n[..|n| - 1] + [n[|n| - 1]];
    }
  }

  lemma LowerPrefix(a: string, b: string)
    ensures Lower(a + b)[..|a|] == Lower(a)
  {
  }

  /** Number of lines that start with `prefix`. */
  function CountStartingWith(lines: seq<string>, prefix: string): (n: nat)
    ensures n <= |lines|
  {
    if lines == [] then 0
    else (if StartsWith(lines[0], prefix) then 1 else 0) + CountStartingWith(lines[1..], prefix)
  }
}
