/** What may stand around a patch, and between its lines, without changing it (internal/tools/applypatch/parser.go). */
module PatchEnvelope {
  import opened Basics
  import opened PatchTypes
  import opened Trimming
  import opened PatchParser
  import opened PatchPrinter

  predicate Spaces(s: string) {
    forall c :: c in s ==> IsSpace(c)
  }

  lemma {:induction false} TrimsLeft(before: string, t: string)
    requires Spaces(before)
    ensures TrimLeft(before + t) == TrimLeft(t)
  {
    if before == "" {
      assert before + t == t;
    } else {
      assert before[0] in before && forall c :: c in before[1..] ==> c in before;
      assert (before + t)[1..] == before[1..] + t;
      TrimsLeft(before[1..], t);
    }
  }

  lemma {:induction false} TrimsRight(t: string, after: string)
    requires Spaces(after)
    ensures TrimRight(t + after) == TrimRight(t)
  {
    if after == "" {
      assert t + after == t;
    } else {
      var n := |after| - 1;
      assert after[n] in after && forall c :: c in after[..n] ==> c in after;
      assert (t + after)[..|t + after|-1] == t + after[..n];
      TrimsRight(t, after[..n]);
    }
  }

  /** Exactly the white space on both sides goes. */
  lemma TrimsAround(before: string, t: string, after: string)
    requires Spaces(before) && Spaces(after) && Tight(t)
    ensures TrimSpace(before + t + after) == t
  {
    assert before + t + after == before + (t + after);
    TrimsLeft(before, t + after);
    assert t + after != [] && (t + after)[0] == t[0];
    TrimsRight(t, after);
  }

  /** The lines with `\r\n` between them. */
  function JoinReturns(lines: seq<string>): string {
    if lines == [] then "" else if |lines| == 1 then lines[0] else lines[0] + "\r\n" + JoinReturns(lines[1..])
  }

  lemma {:induction false} FoldsOne(line: string, rest: string)
    requires CleanLine(line)
    ensures FoldReturns(line + "\r\n" + rest) == line + "\n" + FoldReturns(rest)
  {
    var s := line + "\r\n" + rest;
    if line == "" {
      assert s[2..] == rest;
    } else {
      assert line[0] in line && forall c :: c in line[1..] ==> c in line;
      assert s[0] == line[0] && s[1] == if |line| > 1 then line[1] else '\r';
      assert |line| > 1 ==> line[1] in line;
      FoldsOne(line[1..], rest);
      assert s[1..] == line[1..] + "\r\n" + rest;
      assert [line[0]] + (line[1..] + "\n" + FoldReturns(rest)) == line + "\n" + FoldReturns(rest);
    }
  }

  lemma {:induction false} FoldsLines(lines: seq<string>)
    requires AllClean(lines)
    ensures FoldReturns(JoinReturns(lines)) == JoinLines(lines)
  {
    if |lines| == 1 {
      assert lines[0] in lines;
      NothingToFold(lines[0]);
    } else if lines != [] {
      assert lines[0] in lines;
      FoldsLines(lines[1..]);
      FoldsOne(lines[0], JoinReturns(lines[1..]));
    }
  }

  // ---------- the envelope ----------

  /** The lines of a patch, as they are or inside a here-document of the shell, joined by one kind of line ending and
      with white space on both sides. */
  function Wrapped(lines: seq<string>, opening: Option<string>, closing: string, crlf: bool, before: string, after: string): string {
    before + Joined(AllLines(lines, opening, closing), crlf) + after
  }

  function AllLines(lines: seq<string>, opening: Option<string>, closing: string): seq<string> {
    if opening.Some? then [opening.value] + lines + [closing] else lines
  }

  function Joined(lines: seq<string>, crlf: bool): string {
    if crlf then JoinReturns(lines) else JoinLines(lines)
  }

  /** What is white space around it and the kind of its line endings make no difference. */
  lemma Unwrapped(all: seq<string>, crlf: bool, before: string, after: string)
    requires |all| >= 2 && AllClean(all) && Tight(all[0]) && Tight(all[|all|-1]) && Spaces(before) && Spaces(after)
    ensures Split(FoldReturns(TrimSpace(before + Joined(all, crlf) + after))) == all
  {
    EndsMatch(all, crlf);
    assert forall l :: l in all ==> CleanLine(l) && NoNewline(l);
    hide *;
    TightJoined(all, crlf);
    TrimsAround(before, Joined(all, crlf), after);
    Folded(all, crlf);
    SplitJoin(all);
  }

  lemma TightJoined(all: seq<string>, crlf: bool)
    requires |all| >= 2 && Tight(all[0]) && Tight(all[|all|-1])
    ensures Tight(Joined(all, crlf))
  {
    EndsMatch(all, crlf);
    hide JoinLines, JoinReturns, IsSpace;
  }

  lemma Folded(all: seq<string>, crlf: bool)
    requires AllClean(all)
    ensures FoldReturns(Joined(all, crlf)) == JoinLines(all)
  {
    assert forall l :: l in all ==> CleanLine(l);
    if crlf {
      FoldsLines(all);
    } else {
      CleanJoin(all);
      NothingToFold(JoinLines(all));
    }
  }

  lemma WrappedLines(lines: seq<string>, opening: Option<string>, closing: string, crlf: bool, before: string, after: string)
    requires |lines| >= 2 && AllClean(lines) && lines[0] == beginPatch && lines[|lines|-1] == endPatch
    requires Spaces(before) && Spaces(after)
    requires opening.Some? ==> HeredocStart(opening.value) && HasSuffix(closing, "EOF") && CleanLine(closing) && Tight(closing)
    ensures PatchLines(Wrapped(lines, opening, closing, crlf, before, after)) == lines
  {
    var all := AllLines(lines, opening, closing);
    Openings();
    assert AllClean(all) && Tight(all[0]) && Tight(all[|all|-1]);
    assert opening.Some? ==> all[1..|all|-1] == lines;
    assert opening.None? ==> !HeredocStart(all[0]) by { assert beginPatch[0] == '*'; }
    hide Split, FoldReturns, TrimSpace, Tight, CleanLine, Spaces, JoinLines, JoinReturns;
    Unwrapped(all, crlf, before, after);
  }

  lemma Openings()
    ensures forall s :: HeredocStart(s) ==> CleanLine(s) && Tight(s)
    ensures CleanLine(beginPatch) && CleanLine(endPatch) && Tight(beginPatch) && Tight(endPatch)
  {
    MarkersClean();
    assert beginPatch[0] == '*' && beginPatch[|beginPatch|-1] == 'h' && endPatch[0] == '*' && endPatch[|endPatch|-1] == 'h';
  }

  lemma EndsMatch(lines: seq<string>, crlf: bool)
    requires |lines| >= 2 && lines[0] != "" && lines[|lines|-1] != ""
    ensures var s, last := Joined(lines, crlf), lines[|lines|-1];
            s != "" && s[0] == lines[0][0] && s[|s|-1] == last[|last|-1]
  {
    EndsAsLast(lines, crlf);
  }

  lemma {:induction false} EndsAsLast(lines: seq<string>, crlf: bool)
    requires lines != [] && lines[|lines|-1] != ""
    ensures var s, last := Joined(lines, crlf), lines[|lines|-1];
            s != "" && s[|s|-1] == last[|last|-1]
  {
    if |lines| > 1 { EndsAsLast(lines[1..], crlf); }
  }

  /** Whatever stands around it, here-document, white space or Windows line endings, a printed patch is read as it was. */
  lemma ParseWrapped(hunks: seq<Hunk>, opening: Option<string>, closing: string, crlf: bool, before: string, after: string)
    requires hunks != [] && forall h :: h in hunks ==> Printable(h)
    requires Spaces(before) && Spaces(after)
    requires opening.Some? ==> HeredocStart(opening.value) && HasSuffix(closing, "EOF") && CleanLine(closing) && Tight(closing)
    ensures Parsed(Wrapped(Split(Print(hunks)), opening, closing, crlf, before, after)) == Ok(hunks)
  {
    var printed := PrintHunks(hunks);
    var lines := [beginPatch] + printed + [endPatch];
    MarkersClean();
    HunksClean(hunks);
    assert forall l :: l in lines ==> CleanLine(l) && NoNewline(l);
    SplitJoin(lines);
    WrappedLines(lines, opening, closing, crlf, before, after);
    assert Split(Print(hunks)) == lines;
    var text := Wrapped(lines, opening, closing, crlf, before, after);
    assert PatchLines(text) == lines;
    assert lines[..|lines|-1] == [beginPatch] + printed;
    HunksReadBack([beginPatch], hunks, []);
    assert [] + hunks == hunks;
    assert Parsed(text) == Ok(hunks);
  }
}
