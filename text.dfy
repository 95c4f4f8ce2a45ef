/** The pieces of Python's text handling that the ledger relies on:
    `str.strip()`, `file.readline()` and iterating a text file line by line. */
module Text {

  /** The characters `str.strip()` removes: space, \t \n \x0b \x0c \r and \x1c-\x1f. */
  predicate IsSpace(ch: char) {
    ch == ' ' || 9 <= ch as int <= 13 || 28 <= ch as int <= 31
  }

  predicate NoNewline(s: string) {
    forall i :: 0 <= i < |s| ==> s[i] != '\n'
  }

  predicate AllSpace(s: string) {
    forall i :: 0 <= i < |s| ==> IsSpace(s[i])
  }

  /** `s.rstrip()`. */
  function StripRight(s: string): string {
    if s != [] && IsSpace(s[|s| - 1]) then StripRight(s[..|s| - 1]) else s
  }

  /** `s.lstrip()`. */
  function StripLeft(s: string): string {
    if s != [] && IsSpace(s[0]) then StripLeft(s[1..]) else s
  }

  /** `s.strip()`: drop leading and trailing white space. */
  function Strip(s: string): string {
    StripLeft(StripRight(s))
  }

  /** `rstrip()` keeps the longest prefix that does not end in white space. */
  lemma {:induction false} StripRightSpec(s: string)
    ensures |StripRight(s)| <= |s| && StripRight(s) == s[..|StripRight(s)|]
    ensures AllSpace(s[|StripRight(s)|..])
    ensures StripRight(s) == [] || !IsSpace(StripRight(s)[|StripRight(s)| - 1])
  {
    if s != [] && IsSpace(s[|s| - 1]) {
      var r := StripRight(s[..|s| - 1]);
      StripRightSpec(s[..|s| - 1]);
      assert s[..|s| - 1][|r|..] + [s[|s| - 1]] == s[|r|..];
    }
  }

  /** `lstrip()` keeps the longest suffix that does not start with white space. */
  lemma {:induction false} StripLeftSpec(s: string)
    ensures |StripLeft(s)| <= |s| && StripLeft(s) == s[|s| - |StripLeft(s)|..]
    ensures AllSpace(s[..|s| - |StripLeft(s)|])
    ensures StripLeft(s) == [] || !IsSpace(StripLeft(s)[0])
  {
    if s != [] && IsSpace(s[0]) {
      var r := StripLeft(s[1..]);
      StripLeftSpec(s[1..]);
      assert [s[0]] + s[1..][..|s| - 1 - |r|] == s[..|s| - |r|];
    }
  }

  /** What `strip()` leaves neither starts nor ends with white space, is a
      slice of the text, and is empty exactly when the text is all white space. */
  lemma StripSpec(s: string)
    ensures Strip(s) == [] || (!IsSpace(Strip(s)[0]) && !IsSpace(Strip(s)[|Strip(s)| - 1]))
    ensures Strip(s) == [] <==> AllSpace(s)
    ensures |Strip(s)| <= |StripRight(s)| <= |s|
    ensures Strip(s) == s[|StripRight(s)| - |Strip(s)|..|StripRight(s)|]
  {
    var t := StripRight(s);
    var r := StripLeft(t);
    StripRightSpec(s);
    StripLeftSpec(t);
    if r == [] {
      forall i | 0 <= i < |s| ensures IsSpace(s[i]) {
        if i < |t| { assert s[i] == t[..|t| - |r|][i]; } else { assert s[i] == s[|t|..][i - |t|]; }
      }
    } else {
      assert t[|t| - 1] == r[|r| - 1];
      assert s[|t| - 1] == t[|t| - 1];
    }
  }

  /** A trailing newline never survives `strip()`. */
  lemma StripNewline(s: string)
    ensures Strip(s + ['\n']) == Strip(s)
  {
    assert (s + ['\n'])[..|s|] == s;
  }

  /** Length of the first line of `s`, its terminating '\n' included
      (all of `s` when there is no '\n'). */
  function LineLength(s: string): (k: nat)
    ensures k <= |s|
    ensures s != [] ==> 0 < k
    ensures forall i :: 0 <= i < k - 1 ==> s[i] != '\n'
    ensures 0 < k < |s| ==> s[k - 1] == '\n'
  {
    if s == [] then 0 else if s[0] == '\n' then 1 else 1 + LineLength(s[1..])
  }

  lemma {:induction false} LineLengthOfLine(line: string, rest: string)
    requires NoNewline(line)
    ensures LineLength(line + ['\n'] + rest) == |line| + 1
  {
    if line != [] {
      assert (line + ['\n'] + rest)[1..] == line[1..] + ['\n'] + rest;
      LineLengthOfLine(line[1..], rest);
    }
  }

  /** `f.readline()` after the file position was set to `start`. */
  function ReadLineFrom(f: string, start: nat): (r: string)
    requires start <= |f|
    ensures r <= f[start..]
  {
    f[start..][..LineLength(f[start..])]
  }

  /** `for line in f`: the lines of a text file, each with its '\n' (the last may lack it). */
  function SplitLines(s: string): (lines: seq<string>)
    ensures (forall l :: l in lines ==> l != []) && (s == [] <==> lines == [])
    decreases |s|
  {
    if s == [] then [] else [s[..LineLength(s)]] + SplitLines(s[LineLength(s)..])
  }

  function Concat(lines: seq<string>): string {
    if lines == [] then [] else lines[0] + Concat(lines[1..])
  }

  predicate EndsLine(l: string) {
    l != [] && l[|l| - 1] == '\n'
  }

  /** Iterating a file loses nothing: its lines put back together are the file. */
  lemma {:induction false} SplitLinesJoin(s: string)
    ensures Concat(SplitLines(s)) == s
    decreases |s|
  {
    if s != [] {
      var k := LineLength(s);
      var lines, rest := SplitLines(s), SplitLines(s[k..]);
      SplitLinesJoin(s[k..]);
      assert lines == [s[..k]] + rest;
      assert lines[0] == s[..k] && lines[1..] == rest;
      assert Concat(lines) == s[..k] + Concat(rest);
      assert s[..k] + s[k..] == s;
    }
  }

  /** Every line of a file but the last ends with '\n'. */
  lemma {:induction false} SplitLinesEnd(s: string)
    ensures forall i :: 0 <= i < |SplitLines(s)| - 1 ==> EndsLine(SplitLines(s)[i])
    decreases |s|
  {
    if s != [] {
      var k := LineLength(s);
      var lines, rest := SplitLines(s), SplitLines(s[k..]);
      SplitLinesEnd(s[k..]);
      assert lines == [s[..k]] + rest;
      if rest != [] {
        assert k < |s| && EndsLine(s[..k]);
      }
      assert forall i :: 1 <= i < |lines| ==> lines[i] == rest[i - 1];
    }
  }

  /** A line holds no '\n' before its last character. */
  predicate OneLine(l: string) {
    l != [] && NoNewline(l[..|l| - 1])
  }

  /** Each line read by iteration is a single line: a '\n' can only end it. */
  lemma {:induction false} SplitLinesInner(s: string)
    ensures forall i :: 0 <= i < |SplitLines(s)| ==> OneLine(SplitLines(s)[i])
    decreases |s|
  {
    if s != [] {
      var k := LineLength(s);
      var lines, rest := SplitLines(s), SplitLines(s[k..]);
      SplitLinesInner(s[k..]);
      assert lines == [s[..k]] + rest;
      assert OneLine(s[..k]) by {
        assert s[..k][..k - 1] == s[..k - 1];
      }
      assert forall i :: 1 <= i < |lines| ==> lines[i] == rest[i - 1];
    }
  }

  lemma SplitOneLine(line: string, rest: string)
    requires NoNewline(line)
    ensures SplitLines(line + ['\n'] + rest) == [line + ['\n']] + SplitLines(rest)
  {
    var s := line + ['\n'] + rest;
    LineLengthOfLine(line, rest);
    assert s[..|line| + 1] == line + ['\n'];
    assert s[|line| + 1..] == rest;
  }
}
