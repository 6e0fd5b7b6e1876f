/** Files as lines with their own endings (internal/tools/applypatch/text_file.go). */
module SourceText {
  import opened Basics

  datatype SourceLine = SourceLine(text: string, ending: string)

  datatype Replacement = Replacement(start: nat, oldCount: nat, newLines: seq<string>)

  function Texts(lines: seq<SourceLine>): (t: seq<string>)
    ensures |t| == |lines|
    ensures forall i :: 0 <= i < |t| ==> t[i] == lines[i].text
  {
    seq(|lines|, i requires 0 <= i < |lines| => lines[i].text)
  }

  function Concat(lines: seq<SourceLine>): string {
    if lines == [] then "" else lines[0].text + lines[0].ending + Concat(lines[1..])
  }

  lemma {:induction false} ConcatSplit(a: seq<SourceLine>, b: seq<SourceLine>)
    ensures Concat(a + b) == Concat(a) + Concat(b)
  {
    if a == [] {
      assert a + b == b;
    } else {
      assert (a + b)[1..] == a[1..] + b;
      ConcatSplit(a[1..], b);
    }
  }

  // ---------- canonical line lists ----------

  predicate IsBreak(c: char) { c == '\r' || c == '\n' }

  predicate Plain(text: string) {
    forall c :: c in text ==> !IsBreak(c)
  }

  predicate IsEnding(ending: string) {
    ending == "\n" || ending == "\r" || ending == "\r\n"
  }

  /** Line `i` cannot be cut in another way: its text holds no break, only the last line may
      lack an ending (and is then not empty), and a bare "\r" is not followed by "\n". */
  predicate CanonicalLine(lines: seq<SourceLine>, i: nat)
    requires i < |lines|
  {
    && Plain(lines[i].text)
    && (if lines[i].ending == "" then i == |lines| - 1 && lines[i].text != "" else IsEnding(lines[i].ending))
    && (lines[i].ending == "\r" && i + 1 < |lines| ==> !(lines[i+1].text == "" && lines[i+1].ending == "\n"))
  }

  predicate Canonical(lines: seq<SourceLine>) {
    forall i :: 0 <= i < |lines| ==> CanonicalLine(lines, i)
  }

  lemma CanonicalTail(lines: seq<SourceLine>)
    requires lines != [] && Canonical(lines)
    ensures Canonical(lines[1..])
  {
    forall i | 0 <= i < |lines[1..]|
      ensures CanonicalLine(lines[1..], i)
    {
      assert CanonicalLine(lines, i + 1);
    }
  }

  /** The text of the first line ends at the first break. */
  lemma FirstBreak(lines: seq<SourceLine>)
    requires lines != [] && Canonical(lines)
    ensures var s, n := Concat(lines), |lines[0].text|;
            && n <= |s| && s[..n] == lines[0].text && s[n..] == lines[0].ending + Concat(lines[1..])
            && (n < |s| ==> IsBreak(s[n])) && (n == |s| ==> lines[0].ending == "" && lines == [lines[0]])
  {
    assert CanonicalLine(lines, 0);
    var l := lines[0];
    assert Concat(lines) == l.text + (l.ending + Concat(lines[1..]));
    if l.ending == "" { assert lines[1..] == []; }
  }

  lemma FirstTextUnique(a: seq<SourceLine>, b: seq<SourceLine>)
    requires a != [] && b != [] && Canonical(a) && Canonical(b) && Concat(a) == Concat(b)
    ensures |a[0].text| >= |b[0].text|
  {
    FirstBreak(a);
    FirstBreak(b);
    assert CanonicalLine(b, 0);
    var s := Concat(a);
    forall i | 0 <= i < |b[0].text|
      ensures !IsBreak(s[i])
    {
      assert s[i] == b[0].text[i];
      assert b[0].text[i] in b[0].text;
    }
  }

  /** What follows a bare "\r" never starts with "\n". */
  lemma AfterBareReturn(lines: seq<SourceLine>)
    requires lines != [] && Canonical(lines) && lines[0].ending == "\r"
    ensures Concat(lines[1..]) != "" ==> Concat(lines[1..])[0] != '\n'
  {
    assert CanonicalLine(lines, 0);
    if |lines| > 1 {
      CanonicalTail(lines);
      FirstBreak(lines[1..]);
      assert CanonicalLine(lines, 1);
      assert lines[1].text != "" ==> lines[1].text[0] in lines[1].text;
    }
  }

  lemma FirstEndingUnique(a: seq<SourceLine>, b: seq<SourceLine>)
    requires a != [] && b != [] && Canonical(a) && Canonical(b) && Concat(a) == Concat(b)
    requires a[0].text == b[0].text
    ensures a[0].ending == "\r" ==> b[0].ending == "\r"
  {
    FirstBreak(a);
    FirstBreak(b);
    assert CanonicalLine(a, 0) && CanonicalLine(b, 0);
    var rest := a[0].ending + Concat(a[1..]);
    assert rest == b[0].ending + Concat(b[1..]);
    if a[0].ending == "\r" {
      AfterBareReturn(a);
      assert rest[0] == '\r' && rest[1..] == Concat(a[1..]);
      assert |rest| > 1 ==> rest[1] != '\n';
    }
  }

  lemma EmptyConcat(lines: seq<SourceLine>)
    requires Canonical(lines)
    ensures Concat(lines) == "" <==> lines == []
  {
    if lines != [] { assert CanonicalLine(lines, 0); }
  }

  /** A string has only one canonical cut into lines. */
  lemma {:induction false} CanonicalUnique(a: seq<SourceLine>, b: seq<SourceLine>)
    requires Canonical(a) && Canonical(b) && Concat(a) == Concat(b)
    ensures a == b
  {
    EmptyConcat(a);
    EmptyConcat(b);
    if a != [] {
      FirstTextUnique(a, b);
      FirstTextUnique(b, a);
      FirstBreak(a);
      FirstBreak(b);
      assert a[0].text == b[0].text;
      FirstEndingUnique(a, b);
      FirstEndingUnique(b, a);
      assert CanonicalLine(a, 0) && CanonicalLine(b, 0);
      var rest := a[0].ending + Concat(a[1..]);
      assert rest == b[0].ending + Concat(b[1..]);
      if a[0].ending != "" && b[0].ending != "" {
        assert rest[0] == a[0].ending[0] == b[0].ending[0];
      }
      assert a[0].ending == b[0].ending;
      CanonicalTail(a);
      CanonicalTail(b);
      assert Concat(a[1..]) == rest[|a[0].ending|..] == Concat(b[1..]);
      CanonicalUnique(a[1..], b[1..]);
      assert a == [a[0]] + a[1..] && b == [b[0]] + b[1..];
    }
  }

  // ---------- splicing ----------

  /** In range, sorted and non-overlapping between lines `from` and `to`. */
  predicate Ordered(changes: seq<Replacement>, from: nat, to: nat)
    decreases |changes|
  {
    if changes == [] then from <= to
    else from <= changes[0].start && Ordered(changes[1..], changes[0].start + changes[0].oldCount, to)
  }

  lemma {:induction false} OrderedReach(changes: seq<Replacement>, from: nat, to: nat)
    requires Ordered(changes, from, to)
    ensures from <= to
    ensures forall c :: c in changes ==> from <= c.start && c.start + c.oldCount <= to
    decreases |changes|
  {
    if changes != [] {
      OrderedReach(changes[1..], changes[0].start + changes[0].oldCount, to);
      forall c | c in changes
        ensures from <= c.start && c.start + c.oldCount <= to
      {
        if c != changes[0] { assert c in changes[1..]; }
      }
    }
  }

  lemma {:induction false} OrderedConcat(a: seq<Replacement>, b: seq<Replacement>, from: nat, mid: nat, to: nat)
    requires Ordered(a, from, mid) && Ordered(b, mid, to)
    ensures Ordered(a + b, from, to)
    decreases |a|
  {
    if a == [] {
      assert a + b == b;
      OrderedLower(b, from, mid, to);
    } else {
      assert (a + b)[1..] == a[1..] + b;
      OrderedConcat(a[1..], b, a[0].start + a[0].oldCount, mid, to);
    }
  }

  lemma OrderedLower(a: seq<Replacement>, from: nat, mid: nat, to: nat)
    requires from <= mid && Ordered(a, mid, to)
    ensures Ordered(a, from, to)
  {}

  function NewSourceLines(texts: seq<string>, ending: string): seq<SourceLine> {
    seq(|texts|, i requires 0 <= i < |texts| => SourceLine(texts[i], ending))
  }

  /** Lines `from..to` with every replacement carried out. */
  function Spliced(lines: seq<SourceLine>, ending: string, changes: seq<Replacement>, from: nat, to: nat): seq<SourceLine>
    requires to <= |lines| && Ordered(changes, from, to)
    decreases |changes|
  {
    if changes == [] then lines[from..to]
    else
      OrderedReach(changes, from, to);
      assert changes[0] in changes;
      lines[from..changes[0].start] + NewSourceLines(changes[0].newLines, ending)
      + Spliced(lines, ending, changes[1..], changes[0].start + changes[0].oldCount, to)
  }

  function FillOne(line: SourceLine, ending: string): SourceLine {
    if line.ending == "" then line.(ending := ending) else line
  }

  function Filled(lines: seq<SourceLine>, ending: string): seq<SourceLine> {
    seq(|lines|, i requires 0 <= i < |lines| => FillOne(lines[i], ending))
  }

  lemma CanonicalAppend(lines: seq<SourceLine>, line: SourceLine)
    requires Canonical(lines) && (lines != [] ==> lines[|lines|-1].ending != "")
    requires Plain(line.text) && (if line.ending == "" then line.text != "" else IsEnding(line.ending))
    requires lines != [] && lines[|lines|-1].ending == "\r" ==> !(line.text == "" && line.ending == "\n")
    ensures Canonical(lines + [line])
  {
    forall i | 0 <= i < |lines + [line]|
      ensures CanonicalLine(lines + [line], i)
    {
      if i < |lines| { assert CanonicalLine(lines, i); }
    }
  }

  /** The cursor loop's invariant: everything before `lineStart` is cut into complete lines. */
  predicate CutUpTo(contents: string, found: seq<SourceLine>, lineStart: nat) {
    && lineStart <= |contents|
    && Concat(found) == contents[..lineStart]
    && Canonical(found)
    && (found != [] ==> found[|found|-1].ending != "")
    && (found != [] && found[|found|-1].ending == "\r" && lineStart < |contents| ==> contents[lineStart] != '\n')
  }

  /** The line break at `cursor`, taking "\r\n" as one. */
  function EndingAt(contents: string, cursor: nat): string
    requires cursor < |contents|
  {
    if contents[cursor] == '\r' then
      if cursor + 1 < |contents| && contents[cursor + 1] == '\n' then "\r\n" else "\r"
    else if contents[cursor] == '\n' then "\n"
    else ""
  }

  lemma CutOneLine(contents: string, found: seq<SourceLine>, lineStart: nat, cursor: nat)
    requires CutUpTo(contents, found, lineStart) && lineStart <= cursor < |contents|
    requires Plain(contents[lineStart..cursor]) && EndingAt(contents, cursor) != ""
    ensures var ending := EndingAt(contents, cursor);
            cursor + |ending| <= |contents|
            && CutUpTo(contents, found + [SourceLine(contents[lineStart..cursor], ending)], cursor + |ending|)
  {
    var line := SourceLine(contents[lineStart..cursor], EndingAt(contents, cursor));
    CanonicalAppend(found, line);
    ConcatSplit(found, [line]);
    assert Concat([line]) == line.text + line.ending;
    assert contents[..cursor + |line.ending|] == contents[..lineStart] + (line.text + line.ending);
  }

  lemma CutLastLine(contents: string, found: seq<SourceLine>, lineStart: nat)
    requires CutUpTo(contents, found, lineStart) && lineStart < |contents| && Plain(contents[lineStart..])
    ensures Canonical(found + [SourceLine(contents[lineStart..], "")])
    ensures Concat(found + [SourceLine(contents[lineStart..], "")]) == contents
  {
    var line := SourceLine(contents[lineStart..], "");
    CanonicalAppend(found, line);
    ConcatSplit(found, [line]);
    assert Concat([line]) == line.text;
    assert contents == contents[..lineStart] + contents[lineStart..];
  }

  method ScanLines(contents: string) returns (found: seq<SourceLine>, preferred: string)
    ensures Canonical(found) && Concat(found) == contents
    ensures preferred == if found != [] && found[0].ending != "" then found[0].ending else "\n"
  {
    found, preferred := [], "\n";
    var lineStart, cursor := 0, 0;
    while cursor < |contents|
      invariant 0 <= lineStart <= cursor <= |contents|
      invariant Plain(contents[lineStart..cursor]) && CutUpTo(contents, found, lineStart)
      invariant preferred == if found != [] then found[0].ending else "\n"
    {
      var ending := EndingAt(contents, cursor);
      if ending == "" {
        assert contents[lineStart..cursor + 1] == contents[lineStart..cursor] + [contents[cursor]];
        cursor := cursor + 1;
        continue;
      }
      if found == [] {
        preferred := ending;
      }
      CutOneLine(contents, found, lineStart, cursor);
      found := found + [SourceLine(contents[lineStart..cursor], ending)];
      cursor := cursor + |ending|;
      lineStart := cursor;
    }
    assert found != [] ==> CanonicalLine(found, 0);
    assert contents[lineStart..cursor] == contents[lineStart..];
    if lineStart < |contents| {
      CutLastLine(contents, found, lineStart);
      found := found + [SourceLine(contents[lineStart..], "")];
    } else {
      assert contents[..lineStart] == contents;
    }
  }

  /** What is still to be written once the first `i` replacements are done. */
  function Rest(lines: seq<SourceLine>, ending: string, changes: seq<Replacement>, i: nat, from: nat): seq<SourceLine>
    requires i <= |changes| && Ordered(changes[i..], from, |lines|)
  {
    Spliced(lines, ending, changes[i..], from, |lines|)
  }

  lemma RestStep(lines: seq<SourceLine>, ending: string, changes: seq<Replacement>, i: nat, from: nat)
    requires i < |changes| && Ordered(changes[i..], from, |lines|)
    ensures var c := changes[i];
            && from <= c.start <= |lines| && Ordered(changes[i+1..], c.start + c.oldCount, |lines|)
            && Rest(lines, ending, changes, i, from)
               == lines[from..c.start] + NewSourceLines(c.newLines, ending) + Rest(lines, ending, changes, i + 1, c.start + c.oldCount)
  {
    var left := changes[i..];
    OrderedReach(left, from, |lines|);
    assert left[0] == changes[i] && left[0] in left && left[1..] == changes[i+1..];
  }

  method Splice(lines: seq<SourceLine>, ending: string, changes: seq<Replacement>) returns (newLines: seq<SourceLine>)
    requires Ordered(changes, 0, |lines|)
    ensures newLines == Spliced(lines, ending, changes, 0, |lines|)
  {
    newLines := [];
    var sourceIndex: nat := 0;
    assert changes[0..] == changes;
    for i := 0 to |changes|
      invariant Ordered(changes[i..], sourceIndex, |lines|)
      invariant Spliced(lines, ending, changes, 0, |lines|) == newLines + Rest(lines, ending, changes, i, sourceIndex)
    {
      RestStep(lines, ending, changes, i, sourceIndex);
      newLines := newLines + lines[sourceIndex..changes[i].start] + NewSourceLines(changes[i].newLines, ending);
      sourceIndex := changes[i].start + changes[i].oldCount;
    }
    newLines := newLines + lines[sourceIndex..];
  }

  method Fill(lines: seq<SourceLine>, ending: string) returns (newLines: seq<SourceLine>)
    ensures newLines == Filled(lines, ending)
  {
    newLines := lines;
    for index := 0 to |newLines|
      invariant |newLines| == |lines|
      invariant forall k :: 0 <= k < index ==> newLines[k] == FillOne(lines[k], ending)
      invariant forall k :: index <= k < |newLines| ==> newLines[k] == lines[k]
    {
      if newLines[index].ending == "" {
        newLines := newLines[index := newLines[index].(ending := ending)];
      }
    }
  }

  class SourceFile {
    var lines: seq<SourceLine>
    var preferredEnding: string

    /** `parseSourceFile`: the canonical lines of `contents` and the first ending used. */
    constructor (contents: string)
      ensures Canonical(lines) && Concat(lines) == contents
      ensures preferredEnding == if lines != [] && lines[0].ending != "" then lines[0].ending else "\n"
    {
      var found, preferred := ScanLines(contents);
      lines, preferredEnding := found, preferred;
    }

    method ApplyReplacements(changes: seq<Replacement>)
      requires Ordered(changes, 0, |lines|)
      modifies this
      ensures preferredEnding == old(preferredEnding)
      ensures lines == Filled(Spliced(old(lines), preferredEnding, changes, 0, |old(lines)|), preferredEnding)
    {
      var newLines := Splice(lines, preferredEnding, changes);
      newLines := Fill(newLines, preferredEnding);
      lines := newLines;
    }

    method Contents() returns (contents: string)
      ensures contents == Concat(lines)
    {
      contents := "";
      for i := 0 to |lines|
        invariant contents == Concat(lines[..i])
      {
        assert lines[..i+1] == lines[..i] + [lines[i]];
        ConcatSplit(lines[..i], [lines[i]]);
        assert Concat([lines[i]]) == lines[i].text + lines[i].ending;
        contents := contents + (lines[i].text + lines[i].ending);
      }
      assert lines[..|lines|] == lines;
    }
  }

  // ---------- what splicing leaves alone ----------

  predicate Outside(changes: seq<Replacement>, k: nat) {
    forall c :: c in changes ==> !(c.start <= k < c.start + c.oldCount)
  }

  /** How far the replacements before line `k` move it. */
  function Shift(changes: seq<Replacement>, k: nat): int {
    if changes == [] || k < changes[0].start then 0
    else |changes[0].newLines| - changes[0].oldCount + Shift(changes[1..], k)
  }

  /** A line outside every replaced range keeps its text and its ending, at its shifted place. */
  lemma {:induction false} OutsideKept(lines: seq<SourceLine>, ending: string, changes: seq<Replacement>, from: nat, to: nat, k: nat)
    requires to <= |lines| && Ordered(changes, from, to) && from <= k < to && Outside(changes, k)
    ensures var r := Spliced(lines, ending, changes, from, to);
            var p := k - from + Shift(changes, k);
            0 <= p < |r| && r[p] == lines[k]
    decreases |changes|
  {
    if changes != [] {
      OrderedReach(changes, from, to);
      var c := changes[0];
      assert c in changes;
      var next := c.start + c.oldCount;
      OrderedReach(changes[1..], next, to);
      SplicedUnfold(lines, ending, changes, from, to);
      hide Spliced, Ordered;
      if k >= c.start {
        assert k >= next;
        assert Outside(changes[1..], k);
        OutsideKept(lines, ending, changes[1..], next, to, k);
      }
    }
  }

  lemma SplicedUnfold(lines: seq<SourceLine>, ending: string, changes: seq<Replacement>, from: nat, to: nat)
    requires to <= |lines| && Ordered(changes, from, to) && changes != []
    ensures var c := changes[0];
            && from <= c.start && c.start + c.oldCount <= to && Ordered(changes[1..], c.start + c.oldCount, to)
            && Spliced(lines, ending, changes, from, to)
               == lines[from..c.start] + NewSourceLines(c.newLines, ending) + Spliced(lines, ending, changes[1..], c.start + c.oldCount, to)
  {
    OrderedReach(changes, from, to);
    assert changes[0] in changes;
  }

  /** The same over the finished file: only a missing final ending is filled in. */
  lemma FinishedFileKeeps(lines: seq<SourceLine>, ending: string, changes: seq<Replacement>, k: nat)
    requires Canonical(lines) && Ordered(changes, 0, |lines|) && k < |lines| && Outside(changes, k)
    ensures var r := Filled(Spliced(lines, ending, changes, 0, |lines|), ending);
            var p := k + Shift(changes, k);
            && 0 <= p < |r| && r[p].text == lines[k].text
            && (r[p].ending == lines[k].ending || (k == |lines| - 1 && lines[k].ending == "" && r[p].ending == ending))
  {
    OutsideKept(lines, ending, changes, 0, |lines|, k);
    assert CanonicalLine(lines, k);
  }

  /** Parsing undoes writing: canonical lines survive a trip through their text. */
  method Reparse(lines: seq<SourceLine>) returns (again: seq<SourceLine>)
    requires Canonical(lines)
    ensures again == lines
  {
    var file := new SourceFile(Concat(lines));
    CanonicalUnique(file.lines, lines);
    return file.lines;
  }
}
