/** Reading an updated file again (internal/tools/applypatch/text_file.go, file_update.go): when the
    contents written for the finished lines are cut into those very lines. */
module ReadBack {
  import opened Basics
  import opened SourceText
  import opened PatchTypes
  import opened FileUpdate
  import opened PatchMeaning

  predicate AllEnded(lines: seq<SourceLine>) {
    forall l :: l in lines ==> IsEnding(l.ending)
  }

  predicate AllPlain(lines: seq<SourceLine>) {
    forall l :: l in lines ==> Plain(l.text)
  }

  /** A bare "\r" directly in front of an empty line that ends in "\n" reads as one "\r\n". */
  predicate Merges(lines: seq<SourceLine>, i: nat)
    requires i + 1 < |lines|
  {
    lines[i].ending == "\r" && lines[i+1] == SourceLine("", "\n")
  }

  /** No text holds a line break of its own, and no two endings run together. */
  predicate ReadsBack(lines: seq<SourceLine>) {
    AllPlain(lines) && forall i: nat :: i + 1 < |lines| ==> !Merges(lines, i)
  }

  lemma ReadsBackCanonical(lines: seq<SourceLine>)
    requires AllEnded(lines)
    ensures ReadsBack(lines) <==> Canonical(lines)
  {
    if ReadsBack(lines) {
      forall i | 0 <= i < |lines|
        ensures CanonicalLine(lines, i)
      {
        assert lines[i] in lines;
        if i + 1 < |lines| { assert !Merges(lines, i) && lines[i+1] in lines; }
      }
    }
    if Canonical(lines) {
      forall l | l in lines
        ensures Plain(l.text)
      {
        var i :| 0 <= i < |lines| && lines[i] == l;
        assert CanonicalLine(lines, i);
      }
      forall i: nat | i + 1 < |lines|
        ensures !Merges(lines, i)
      {
        assert CanonicalLine(lines, i);
      }
    }
  }

  // ---------- reading can only join lines ----------

  /** A break cannot come before the end of a plain text. */
  lemma PlainReach(s: string, x: string, n: nat)
    requires Plain(x) && x <= s && n < |s| && IsBreak(s[n])
    ensures n >= |x|
  {
    forall i | 0 <= i < |x|
      ensures !IsBreak(s[i])
    {
      assert x[i] in x && s[i] == x[i];
    }
  }

  lemma FirstOf(lines: seq<SourceLine>)
    requires lines != []
    ensures var s, n := Concat(lines), |lines[0].text|;
            n <= |s| && s[..n] == lines[0].text && s[n..] == lines[0].ending + Concat(lines[1..])
  {
    assert Concat(lines) == lines[0].text + (lines[0].ending + Concat(lines[1..]));
  }

  /** Both ways of cutting agree on the text of the first line. */
  lemma SameFirstText(a: seq<SourceLine>, f: seq<SourceLine>)
    requires a != [] && f != [] && Canonical(a) && AllEnded(f) && AllPlain(f) && Concat(a) == Concat(f)
    ensures a[0].text == f[0].text && a[0].ending != ""
  {
    FirstBreak(a);
    FirstOf(f);
    assert CanonicalLine(a, 0) && f[0] in f;
    var s := Concat(a);
    var m, n := |a[0].text|, |f[0].text|;
    assert s[n] == f[0].ending[0];
    PlainReach(s, a[0].text, n);
    if m < |s| { PlainReach(s, f[0].text, m); }
  }

  /** After a line ending that is a bare "\r" in a canonical cut, no "\n" follows. */
  lemma BareReturnStays(a: seq<SourceLine>, f: seq<SourceLine>)
    requires a != [] && f != [] && Canonical(a) && AllEnded(f) && a[0].ending + Concat(a[1..]) == f[0].ending + Concat(f[1..])
    ensures a[0].ending == "\r" ==> f[0].ending == "\r"
  {
    assert f[0] in f;
    var rest := a[0].ending + Concat(a[1..]);
    assert rest == f[0].ending + Concat(f[1..]);
    if a[0].ending == "\r" {
      AfterBareReturn(a);
      assert rest[0] == '\r' && rest[1..] == Concat(a[1..]);
      assert |rest| > 1 ==> rest[1] != '\n';
    }
  }

  /** Nothing but a split "\r\n" can be cut in two ways. */
  lemma FirstLine(a: seq<SourceLine>, f: seq<SourceLine>)
    requires a != [] && f != [] && Canonical(a) && AllEnded(f) && AllPlain(f) && Concat(a) == Concat(f)
    ensures (a[0] == f[0] && Concat(a[1..]) == Concat(f[1..]))
            || (|f| > 1 && Merges(f, 0) && a[0].ending == "\r\n" && Concat(a[1..]) == Concat(f[2..]))
  {
    SameFirstText(a, f);
    FirstBreak(a);
    FirstOf(f);
    assert CanonicalLine(a, 0) && f[0] in f;
    var rest := a[0].ending + Concat(a[1..]);
    assert rest == f[0].ending + Concat(f[1..]);
    assert rest[0] == a[0].ending[0] == f[0].ending[0];
    BareReturnStays(a, f);
    if a[0].ending == f[0].ending {
      assert Concat(a[1..]) == rest[|a[0].ending|..];
    } else {
      assert rest[1] == '\n' && rest[1..] == Concat(f[1..]);
      SecondIsEmpty(f);
      assert Concat(a[1..]) == rest[2..];
    }
  }

  lemma SecondIsEmpty(f: seq<SourceLine>)
    requires f != [] && AllEnded(f) && AllPlain(f) && Concat(f[1..]) != "" && Concat(f[1..])[0] == '\n'
    ensures |f| > 1 && f[1] == SourceLine("", "\n") && Concat(f[1..])[1..] == Concat(f[2..])
  {
    var later := f[1..];
    assert later[0] == f[1] && f[1] in f && later[1..] == f[2..];
    FirstOf(later);
    PlainReach(Concat(later), f[1].text, 0);
  }

  /** However the contents of plain lines are cut, they are cut into those lines or into fewer. */
  lemma {:induction false} CutIntoFewer(a: seq<SourceLine>, f: seq<SourceLine>)
    requires Canonical(a) && AllEnded(f) && AllPlain(f) && Concat(a) == Concat(f)
    ensures a == f || |a| < |f|
    decreases |f|
  {
    EmptyConcat(a);
    if f != [] {
      assert f[0] in f;
      FirstOf(f);
      FirstLine(a, f);
      CanonicalTail(a);
      if a[0] == f[0] && Concat(a[1..]) == Concat(f[1..]) {
        CutIntoFewer(a[1..], f[1..]);
        assert a == [a[0]] + a[1..] && f == [f[0]] + f[1..];
      } else {
        CutIntoFewer(a[1..], f[2..]);
      }
    }
  }

  /** The contents of lines that all have an ending read back as the same texts if and only if no text holds
      a line break and no two endings run together. */
  lemma ReadBackExactly(finished: seq<SourceLine>, again: seq<SourceLine>)
    requires AllEnded(finished) && Canonical(again) && Concat(again) == Concat(finished)
    ensures Texts(again) == Texts(finished) <==> ReadsBack(finished)
    ensures ReadsBack(finished) ==> again == finished
  {
    ReadsBackCanonical(finished);
    if ReadsBack(finished) { CanonicalUnique(again, finished); }
    if Texts(again) == Texts(finished) {
      forall l | l in finished
        ensures Plain(l.text)
      {
        var i :| 0 <= i < |finished| && finished[i] == l;
        assert Texts(finished)[i] == again[i].text && CanonicalLine(again, i);
      }
      assert |again| == |Texts(again)| == |finished|;
      CutIntoFewer(again, finished);
    }
  }

  // ---------- the whole update ----------

  lemma {:induction false} SplicedEndings(lines: seq<SourceLine>, ending: string, rs: seq<Replacement>, from: nat, to: nat)
    requires to <= |lines| && Ordered(rs, from, to) && IsEnding(ending)
    requires forall l :: l in lines ==> l.ending == "" || IsEnding(l.ending)
    ensures forall l :: l in Spliced(lines, ending, rs, from, to) ==> l.ending == "" || IsEnding(l.ending)
    decreases |rs|
  {
    if rs != [] {
      SplicedUnfold(lines, ending, rs, from, to);
      SplicedEndings(lines, ending, rs[1..], rs[0].start + rs[0].oldCount, to);
      hide Spliced, Ordered, IsEnding;
    }
  }

  lemma FilledEnded(lines: seq<SourceLine>, ending: string)
    requires IsEnding(ending) && forall l :: l in lines ==> l.ending == "" || IsEnding(l.ending)
    ensures AllEnded(Filled(lines, ending))
  {
    forall l | l in Filled(lines, ending)
      ensures IsEnding(l.ending)
    {
      var i :| 0 <= i < |lines| && Filled(lines, ending)[i] == l;
      assert lines[i] in lines;
    }
  }

  lemma PreferredIsEnding(lines: seq<SourceLine>, ending: string)
    requires Canonical(lines) && ending == (if lines != [] && lines[0].ending != "" then lines[0].ending else "\n")
    ensures IsEnding(ending)
    ensures forall l :: l in lines ==> l.ending == "" || IsEnding(l.ending)
  {
    if lines != [] { assert CanonicalLine(lines, 0); }
    forall l | l in lines
      ensures l.ending == "" || IsEnding(l.ending)
    {
      var i :| 0 <= i < |lines| && lines[i] == l;
      assert CanonicalLine(lines, i);
    }
  }

  /** Whatever the patch and however its chunks were matched: the updated file reads back as the finished
      lines if and only if `ReadsBack` holds of them. */
  lemma UpdateReadsBack(passes: Passes, lines: seq<SourceLine>, ending: string, chunks: seq<Chunk>, result: Result<string, UpdateError>,
                        again: seq<SourceLine>)
    requires AllLinked(chunks) && Canonical(lines) && DerivedFrom(passes, lines, ending, chunks, result)
    requires result.Ok? && Canonical(again) && Concat(again) == result.value
    ensures var u := Unsorted(passes, Texts(lines), chunks, 0, 0);
            && u.Ok? && Ordered(StableSort(u.value), 0, |lines|)
            && var finished := FinishedLines(passes, lines, ending, chunks);
               (Texts(again) == Texts(finished) <==> ReadsBack(finished))
  {
    PreferredIsEnding(lines, ending);
    var rs := StableSort(Unsorted(passes, Texts(lines), chunks, 0, 0).value);
    hide Unsorted, StableSort, Spliced, Filled, IsEnding, Canonical, Concat, ReadsBack, AllEnded;
    SplicedEndings(lines, ending, rs, 0, |lines|);
    FilledEnded(Spliced(lines, ending, rs, 0, |lines|), ending);
    ReadBackExactly(FinishedLines(passes, lines, ending, chunks), again);
  }

  /** For exactly matched chunks whose insertions commute, the updated file reads back as the expected lines
      if and only if `ReadsBack` holds of the finished ones. */
  lemma ExpectedReadsBack(passes: Passes, lines: seq<SourceLine>, ending: string, chunks: seq<Chunk>, result: Result<string, UpdateError>,
                          again: seq<SourceLine>)
    requires AllLinked(chunks) && Exact(passes, Texts(lines), chunks, 0, 0) && Commutes(passes, Texts(lines), chunks)
    requires Canonical(lines) && DerivedFrom(passes, lines, ending, chunks, result)
    requires result.Ok? && Canonical(again) && Concat(again) == result.value
    ensures var u := Unsorted(passes, Texts(lines), chunks, 0, 0);
            && u.Ok? && Ordered(StableSort(u.value), 0, |lines|)
            && (Texts(again) == Expected(passes, Texts(lines), chunks) <==> ReadsBack(FinishedLines(passes, lines, ending, chunks)))
  {
    DerivedLines(passes, lines, ending, chunks, result);
    UpdateReadsBack(passes, lines, ending, chunks, result, again);
    hide *;
  }

  // ---------- one kind of line ending ----------

  /** Every line ends alike; the last one may have no ending. */
  predicate Uniform(lines: seq<SourceLine>, ending: string) {
    forall l :: l in lines ==> l.ending == ending || l.ending == ""
  }

  lemma {:induction false} SplicedUniform(lines: seq<SourceLine>, ending: string, rs: seq<Replacement>, from: nat, to: nat)
    requires to <= |lines| && Ordered(rs, from, to) && Uniform(lines, ending)
    ensures Uniform(Spliced(lines, ending, rs, from, to), ending)
    decreases |rs|
  {
    if rs != [] {
      SplicedUnfold(lines, ending, rs, from, to);
      SplicedUniform(lines, ending, rs[1..], rs[0].start + rs[0].oldCount, to);
      hide Spliced, Ordered;
    }
  }

  lemma UniformReadsBack(lines: seq<SourceLine>, ending: string)
    requires Uniform(lines, ending) && IsEnding(ending) && forall t :: t in Texts(lines) ==> Plain(t)
    ensures ReadsBack(Filled(lines, ending))
  {
    var filled := Filled(lines, ending);
    forall l | l in filled
      ensures Plain(l.text) && l.ending == ending
    {
      var i :| 0 <= i < |filled| && filled[i] == l;
      assert lines[i] in lines && Texts(lines)[i] in Texts(lines);
    }
    forall i: nat | i + 1 < |filled|
      ensures !Merges(filled, i)
    {
      assert filled[i] in filled && filled[i+1] in filled;
    }
  }

  /** So in a file with one kind of line ending, reading the written contents back gives the expected lines
      whenever these hold no line breaks of their own. */
  lemma ReadBackExpected(passes: Passes, lines: seq<SourceLine>, ending: string, chunks: seq<Chunk>, result: Result<string, UpdateError>,
                         again: seq<SourceLine>)
    requires AllLinked(chunks) && Exact(passes, Texts(lines), chunks, 0, 0)
    requires DerivedFrom(passes, lines, ending, chunks, result)
    requires Canonical(lines) && Uniform(lines, ending) && Commutes(passes, Texts(lines), chunks)
    requires forall t :: t in Expected(passes, Texts(lines), chunks) ==> Plain(t)
    requires Canonical(again) && result.Ok? && Concat(again) == result.value
    ensures Texts(again) == Expected(passes, Texts(lines), chunks)
  {
    DerivedLines(passes, lines, ending, chunks, result);
    PreferredIsEnding(lines, ending);
    ExpectedReadsBack(passes, lines, ending, chunks, result, again);
    var rs := StableSort(Unsorted(passes, Texts(lines), chunks, 0, 0).value);
    var spliced := Spliced(lines, ending, rs, 0, |lines|);
    hide Expected, Exact, Commutes, DerivedFrom, StableSort, Unsorted, Spliced, Filled, Canonical, Plain, Concat, ReadsBack;
    SplicedUniform(lines, ending, rs, 0, |lines|);
    FilledTexts(spliced, ending);
    UniformReadsBack(spliced, ending);
  }

  // ---------- the three ways to fail ----------

  lemma SortOne(r: Replacement)
    ensures StableSort([r]) == [r]
  {
    assert [r][..0] == [] && StableSort([]) == [] && StableSort([r]) == Insert([], r);
  }

  lemma SplicedOne(lines: seq<SourceLine>, ending: string, r: Replacement)
    requires Ordered([r], 0, |lines|) && r.start + r.oldCount <= |lines|
    ensures Spliced(lines, ending, [r], 0, |lines|) == lines[..r.start] + NewSourceLines(r.newLines, ending) + lines[r.start+r.oldCount..]
  {
    assert [r][1..] == [];
    SplicedUnfold(lines, ending, [r], 0, |lines|);
  }

  /** The outcome of an update that comes down to one replacement. */
  lemma OneReplacement(passes: Passes, lines: seq<SourceLine>, ending: string, chunks: seq<Chunk>, r: Replacement)
    requires AllLinked(chunks) && Unsorted(passes, Texts(lines), chunks, 0, 0) == Ok([r]) && r.start + r.oldCount <= |lines|
    requires ending == (if lines != [] && lines[0].ending != "" then lines[0].ending else "\n")
    ensures Ordered(StableSort([r]), 0, |lines|)
    ensures var finished := FinishedLines(passes, lines, ending, chunks);
            && finished == Filled(lines[..r.start] + NewSourceLines(r.newLines, ending) + lines[r.start+r.oldCount..], ending)
            && DerivedFrom(passes, lines, ending, chunks, Ok(Concat(finished)))
  {
    SortOne(r);
    assert Ordered([r], 0, |lines|) by { assert [r][1..] == []; }
    SplicedOne(lines, ending, r);
    hide Unsorted, StableSort, Spliced, Filled, Concat, Ordered;
  }

  lemma ConcatOne(a: SourceLine)
    ensures Concat([a]) == a.text + a.ending
  {
    assert [a][1..] == [];
  }

  lemma ConcatTwo(a: SourceLine, b: SourceLine)
    ensures Concat([a, b]) == a.text + a.ending + (b.text + b.ending)
  {
    assert [a, b][1..] == [b];
    ConcatOne(b);
  }

  function Insertion(line: string): seq<Chunk> {
    [Chunk(None, [], [line], [], false)]
  }

  lemma InsertionReplaces(passes: Passes, lines: seq<string>, line: string)
    ensures AllLinked(Insertion(line)) && Unsorted(passes, lines, Insertion(line), 0, 0) == Ok([Replacement(|lines|, 0, [line])])
  {
    assert [Replacement(|lines|, 0, [line])] + [] == [Replacement(|lines|, 0, [line])];
    assert Unsorted(passes, lines, Insertion(line), 1, 0) == Ok([]);
  }

  /** An empty line put behind one that ends in a bare "\r" joins it. */
  lemma InsertedLineMerges(passes: Passes)
    ensures var lines := [SourceLine("x", "\n"), SourceLine("a", "\r")];
            var again := [SourceLine("x", "\n"), SourceLine("a", "\r\n")];
            && AllLinked(Insertion("")) && Canonical(lines) && Canonical(again)
            && DerivedFrom(passes, lines, "\n", Insertion(""), Ok(Concat(again)))
            && Unsorted(passes, Texts(lines), Insertion(""), 0, 0) == Ok([Replacement(2, 0, [""])])
            && Texts(FinishedLines(passes, lines, "\n", Insertion(""))) == ["x", "a", ""]
  {
    var lines, again := [SourceLine("x", "\n"), SourceLine("a", "\r")], [SourceLine("x", "\n"), SourceLine("a", "\r\n")];
    assert CanonicalLine(lines, 0) && CanonicalLine(lines, 1) && CanonicalLine(again, 0) && CanonicalLine(again, 1);
    InsertionReplaces(passes, Texts(lines), "");
    OneReplacement(passes, lines, "\n", Insertion(""), Replacement(2, 0, [""]));
    var finished := FinishedLines(passes, lines, "\n", Insertion(""));
    assert finished == [lines[0]] + [lines[1], SourceLine("", "\n")];
    ConcatSplit([lines[0]], [lines[1], SourceLine("", "\n")]);
    ConcatTwo(lines[1], SourceLine("", "\n"));
    ConcatOne(lines[0]);
    ConcatTwo(again[0], again[1]);
    assert "a" + "\r" + ("" + "\n") == "a" + "\r\n";
  }

  /** A carriage return inside an inserted line splits it. */
  lemma InsertedLineSplits(passes: Passes)
    ensures var again := [SourceLine("b", "\r"), SourceLine("c", "\n")];
            && AllLinked(Insertion("b\rc")) && Canonical([]) && Canonical(again)
            && DerivedFrom(passes, [], "\n", Insertion("b\rc"), Ok(Concat(again)))
            && Unsorted(passes, Texts([]), Insertion("b\rc"), 0, 0) == Ok([Replacement(0, 0, ["b\rc"])])
            && Texts(FinishedLines(passes, [], "\n", Insertion("b\rc"))) == ["b\rc"]
  {
    var again := [SourceLine("b", "\r"), SourceLine("c", "\n")];
    assert CanonicalLine(again, 0) && CanonicalLine(again, 1);
    InsertionReplaces(passes, Texts([]), "b\rc");
    OneReplacement(passes, [], "\n", Insertion("b\rc"), Replacement(0, 0, ["b\rc"]));
    var finished := FinishedLines(passes, [], "\n", Insertion("b\rc"));
    assert finished == [SourceLine("b\rc", "\n")];
    ConcatOne(finished[0]);
    ConcatTwo(again[0], again[1]);
    assert "b" + "\r" + ("c" + "\n") == "b\rc" + "\n";
  }

  const deletion: seq<Chunk> := [Chunk(None, ["X"], [], [], false)]

  lemma DeletionReplaces(passes: Passes, lines: seq<string>)
    requires lines == ["a", "X", ""]
    ensures AllLinked(deletion) && Unsorted(passes, lines, deletion, 0, 0) == Ok([Replacement(1, 1, [])])
  {
    var c := deletion[0];
    assert LinkedContexts(c);
    assert lines[1..2] == ["X"];
    ExactMatchWins(passes, lines, c.oldLines, 0, false, 1);
    var found := Seek(passes, lines, c.oldLines, 0, false);
    assert lines[0..1] == ["a"] && found == Some(1);
    PiecesStop(1, c.oldLines, c.newLines, c.contexts, 0, 0, 0);
    assert c.newLines[0..0] == [];
    assert PiecesOf(1, c.oldLines, c.newLines, c) == [Replacement(1, 1, [])];
    hide Seek, Pieces;
    assert ChunkStep(passes, lines, c, 0) == Ok(Step([Replacement(1, 1, [])], 2));
    assert Unsorted(passes, lines, deletion, 1, 2) == Ok([]);
    assert [Replacement(1, 1, [])] + [] == [Replacement(1, 1, [])];
  }

  /** A deletion brings a bare "\r" in front of an empty line, and the two lines become one. */
  lemma DeletionMerges(passes: Passes)
    ensures var lines := [SourceLine("a", "\r"), SourceLine("X", "\n"), SourceLine("", "\n")];
            var again := [SourceLine("a", "\r\n")];
            && AllLinked(deletion) && Canonical(lines) && Canonical(again)
            && DerivedFrom(passes, lines, "\r", deletion, Ok(Concat(again)))
            && Unsorted(passes, Texts(lines), deletion, 0, 0) == Ok([Replacement(1, 1, [])])
            && Texts(FinishedLines(passes, lines, "\r", deletion)) == ["a", ""]
  {
    var lines := [SourceLine("a", "\r"), SourceLine("X", "\n"), SourceLine("", "\n")];
    var again := [SourceLine("a", "\r\n")];
    assert CanonicalLine(lines, 0) && CanonicalLine(lines, 1) && CanonicalLine(lines, 2) && CanonicalLine(again, 0);
    assert Texts(lines) == ["a", "X", ""];
    DeletionReplaces(passes, Texts(lines));
    OneReplacement(passes, lines, "\r", deletion, Replacement(1, 1, []));
    var finished := FinishedLines(passes, lines, "\r", deletion);
    assert finished == [lines[0], lines[2]];
    ConcatTwo(lines[0], lines[2]);
    ConcatOne(again[0]);
    assert "a" + "\r" + ("" + "\n") == "a" + "\r\n";
  }
}
