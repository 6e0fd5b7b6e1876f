/** The few functions of Go's strings package the patch parser uses. */
module Trimming {
  import opened Basics

  /** `unicode.IsSpace`. */
  predicate IsSpace(c: char) {
    c in {'\t', '\n', '\U{0B}', '\U{0C}', '\r', ' ', '\U{85}', '\U{A0}', '\U{1680}', '\U{2028}', '\U{2029}', '\U{202F}', '\U{205F}', '\U{3000}'}
    || '\U{2000}' <= c <= '\U{200A}'
  }

  function TrimLeft(s: string): string {
    if s != [] && IsSpace(s[0]) then TrimLeft(s[1..]) else s
  }

  function TrimRight(s: string): string {
    if s != [] && IsSpace(s[|s|-1]) then TrimRight(s[..|s|-1]) else s
  }

  /** `strings.TrimSpace`. */
  function TrimSpace(s: string): string {
    TrimRight(TrimLeft(s))
  }

  /** `strings.TrimRight(s, cut)`. */
  function TrimEnd(s: string, cut: set<char>): (t: string)
    ensures t <= s
    ensures s != [] && s[0] !in cut ==> t != [] && t[0] == s[0]
    ensures t != [] ==> t[|t|-1] !in cut
  {
    if s != [] && s[|s|-1] in cut then TrimEnd(s[..|s|-1], cut) else s
  }

  function TrimSuffixReturn(s: string): (t: string)
    ensures if s != [] && s[|s|-1] == '\r' then t + "\r" == s else t == s
  {
    if s != [] && s[|s|-1] == '\r' then s[..|s|-1] else s
  }

  /** `strings.ReplaceAll(s, "\r\n", "\n")`. */
  function FoldReturns(s: string): string {
    if |s| < 2 then s
    else if s[0] == '\r' && s[1] == '\n' then "\n" + FoldReturns(s[2..])
    else [s[0]] + FoldReturns(s[1..])
  }

  /** Nothing to trim on either side. */
  predicate Tight(s: string) {
    s != [] && !IsSpace(s[0]) && !IsSpace(s[|s|-1])
  }

  lemma TightStays(s: string)
    requires Tight(s)
    ensures TrimSpace(s) == s
  {}

  lemma TrimmedIsTight(s: string)
    requires s != [] && TrimSpace(s) == s
    ensures Tight(s)
  {
    TrimLeftShape(s);
    TrimRightShape(TrimLeft(s));
  }

  lemma {:induction false} TrimLeftShape(s: string)
    ensures |TrimLeft(s)| <= |s|
    ensures s != [] && IsSpace(s[0]) ==> |TrimLeft(s)| < |s|
  {
    if s != [] && IsSpace(s[0]) { TrimLeftShape(s[1..]); }
  }

  lemma {:induction false} TrimRightShape(s: string)
    ensures |TrimRight(s)| <= |s|
    ensures s != [] && IsSpace(s[|s|-1]) ==> |TrimRight(s)| < |s|
  {
    if s != [] && IsSpace(s[|s|-1]) { TrimRightShape(s[..|s|-1]); }
  }

  /** Text in which no "\r\n" occurs. */
  predicate NoReturnPair(s: string) {
    forall i :: 0 <= i < |s| - 1 ==> !(s[i] == '\r' && s[i+1] == '\n')
  }

  lemma {:induction false} NothingToFold(s: string)
    requires NoReturnPair(s)
    ensures FoldReturns(s) == s
  {
    if |s| >= 2 {
      assert s == [s[0]] + s[1..];
      var rest := s[1..];
      assert forall i :: 0 <= i < |rest| ==> rest[i] == s[i+1];
      NothingToFold(rest);
    }
  }

  /** A line that survives joining, folding and splitting. */
  predicate CleanLine(l: string) {
    NoNewline(l) && (l != [] ==> l[|l|-1] != '\r')
  }

  lemma {:induction false} CleanJoin(lines: seq<string>)
    requires forall l :: l in lines ==> CleanLine(l)
    ensures NoReturnPair(JoinLines(lines))
  {
    if lines != [] {
      assert lines[0] in lines;
      if |lines| > 1 {
        CleanJoin(lines[1..]);
        CleanPair(lines[0], JoinLines(lines[1..]));
      }
    }
  }

  lemma CleanPair(line: string, rest: string)
    requires CleanLine(line) && NoReturnPair(rest)
    ensures NoReturnPair(line + "\n" + rest)
  {
    var s := line + "\n" + rest;
    forall i | 0 <= i < |s| - 1
      ensures !(s[i] == '\r' && s[i+1] == '\n')
    {
      if i + 1 < |line| {
        assert s[i+1] == line[i+1] && line[i+1] in line;
      } else if i > |line| {
        assert s[i] == rest[i - |line| - 1] && s[i+1] == rest[i - |line|];
      }
    }
  }
}
