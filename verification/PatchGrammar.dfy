/** Which texts are patches, and what each of their lines becomes (internal/tools/applypatch/parser.go). */
module PatchGrammar {
  import opened Basics
  import opened PatchTypes
  import opened Trimming
  import opened PatchParser

  // ---------- the lines of an update ----------

  datatype LineKind = Context | Plus | Minus | Marker | EndMark | Other

  function Line(raw: string): string {
    TrimSuffixReturn(raw)
  }

  function Bare(raw: string): string {
    TrimEnd(Line(raw), {' ', '\t'})
  }

  predicate IsBlank(raw: string) {
    Bare(raw) == ""
  }

  /** By its first letter, but for the two kinds of marks. */
  function KindOf(raw: string): LineKind {
    var line, bare := Line(raw), Bare(raw);
    if line == "" || line[0] == ' ' then Context
    else if line[0] == '+' then Plus
    else if line[0] == '-' then Minus
    else if bare == "@@" || "@@ " <= bare then Marker
    else if bare == "*** End of File" then EndMark
    else Other
  }

  /** Only blank lines stand between line `j` and an end-of-file mark. */
  ghost predicate AfterEnd(body: seq<string>, start: nat, j: nat)
    requires j <= |body|
  {
    exists k :: start <= k < j && KindOf(body[k]) == EndMark && forall l :: k < l < j ==> IsBlank(body[l])
  }

  ghost predicate AfterMarker(body: seq<string>, start: nat, j: nat)
    requires j <= |body|
  {
    start < j && KindOf(body[j-1]) == Marker
  }

  /** After an end-of-file mark only blank lines and a new marker may come; a marker, and an end-of-file mark, not right
      behind a marker, nor an end-of-file mark first of all. */
  ghost predicate Acceptable(body: seq<string>, start: nat, j: nat)
    requires start <= j < |body|
  {
    var kind := KindOf(body[j]);
    if AfterEnd(body, start, j) then IsBlank(body[j]) || kind == Marker
    else
      && kind != Other
      && (kind == Marker || kind == EndMark ==> !AfterMarker(body, start, j))
      && (kind == EndMark ==> start < j)
  }

  predicate Ended(chunks: seq<Chunk>) {
    chunks != [] && chunks[|chunks|-1].isEndOfFile
  }

  /** What the chunks read so far tell about the lines before `j`. */
  ghost predicate ReadUpTo(body: seq<string>, start: nat, j: nat, chunks: seq<Chunk>)
    requires start <= j <= |body|
  {
    && (chunks == [] <==> j == start)
    && (LastEmpty(chunks) <==> AfterMarker(body, start, j))
    && (Ended(chunks) <==> AfterEnd(body, start, j))
  }

  lemma NextAfterEnd(body: seq<string>, start: nat, j: nat)
    requires start <= j < |body|
    ensures var next := j + 1;
            AfterEnd(body, start, next) <==> KindOf(body[j]) == EndMark || (AfterEnd(body, start, j) && IsBlank(body[j]))
  {
    hide KindOf, IsBlank;
    var next := j + 1;
    if AfterEnd(body, start, j) && IsBlank(body[j]) {
      var k :| start <= k < j && KindOf(body[k]) == EndMark && forall l :: k < l < j ==> IsBlank(body[l]);
      assert forall l :: k < l < next ==> IsBlank(body[l]);
    }
  }

  /** What a line is, told from its first letter and its trimmed form. */
  lemma Kinds(raw: string)
    ensures IsBlank(raw) ==> KindOf(raw) in {Context, Other}
    ensures KindOf(raw) == Marker <==> IsContextMarker(Bare(raw))
    ensures KindOf(raw) == EndMark <==> Bare(raw) == endOfFile
    ensures moveTo <= Bare(raw) ==> KindOf(raw) == Other
    ensures KindOf(raw) == EndMark ==> !IsBlank(raw)
  {
    var line, bare := Line(raw), Bare(raw);
    assert bare <= line;
    assert bare != "" ==> bare[0] == line[0];
    if moveTo <= bare { assert bare[4] == 'M' && endOfFile[4] == 'E'; }
    hide TrimEnd, TrimSuffixReturn;
  }

  lemma Taken(c: Chunk, raw: string)
    requires KindOf(raw) !in {Marker, EndMark}
    ensures TakeLine(c, Line(raw)).Ok? <==> KindOf(raw) != Other
    ensures TakeLine(c, Line(raw)).Ok? ==>
              var r := TakeLine(c, Line(raw)).value;
              && !ChunkEmpty(r) && r.isEndOfFile == c.isEndOfFile && r.changeContext == c.changeContext
              && r.oldLines == c.oldLines + (if KindOf(raw) in {Context, Minus} then [Text(raw)] else [])
              && r.newLines == c.newLines + (if KindOf(raw) in {Context, Plus} then [Text(raw)] else [])
  {}

  /** A line without its sign. */
  function Text(raw: string): string {
    if Line(raw) == "" then "" else Line(raw)[1..]
  }

  /** Behind an end-of-file mark. */
  lemma EndedStep(chunks: seq<Chunk>, raw: string)
    requires Ended(chunks) && !LastEmpty(chunks)
    ensures var r := UpdateStep(chunks, raw);
            && (r.Ok? <==> IsBlank(raw) || KindOf(raw) == Marker)
            && (IsBlank(raw) ==> r == Ok(chunks))
            && (KindOf(raw) == Marker ==> r == Ok(chunks + [OpenChunk(Bare(raw))]) && LastEmpty(r.value) && !Ended(r.value))
  {
    Kinds(raw);
    hide KindOf, TakeLine, TrimEnd, TrimSuffixReturn;
  }

  lemma MarkStep(chunks: seq<Chunk>, raw: string)
    requires !Ended(chunks) && KindOf(raw) in {Marker, EndMark}
    ensures var r := UpdateStep(chunks, raw);
            if KindOf(raw) == Marker then r == if LastEmpty(chunks) then Err(ChunkWithoutLines) else Ok(chunks + [OpenChunk(Bare(raw))])
            else if chunks == [] || LastEmpty(chunks) then r == Err(ChunkWithoutLines)
            else r == Ok(SetLast(chunks, chunks[|chunks|-1].(isEndOfFile := true)))
  {
    Kinds(raw);
    hide KindOf, TakeLine, TrimEnd, TrimSuffixReturn;
  }

  lemma LineStep(chunks: seq<Chunk>, raw: string)
    requires !Ended(chunks) && KindOf(raw) !in {Marker, EndMark}
    ensures UpdateStep(chunks, raw).Ok? <==> KindOf(raw) != Other
    ensures KindOf(raw) != Other ==>
              var open := EnsureChunk(chunks);
              var c := TakeLine(open[|open|-1], Line(raw));
              c.Ok? && !ChunkEmpty(c.value) && !c.value.isEndOfFile && UpdateStep(chunks, raw) == Ok(SetLast(open, c.value))
  {
    Kinds(raw);
    var open := EnsureChunk(chunks);
    Taken(open[|open|-1], raw);
    hide KindOf, TakeLine, TrimEnd, TrimSuffixReturn;
  }

  lemma EndedNotMarked(body: seq<string>, start: nat, j: nat)
    requires j <= |body| && AfterEnd(body, start, j)
    ensures !AfterMarker(body, start, j)
  {
    Kinds(body[j-1]);
  }

  lemma EndedReads(body: seq<string>, start: nat, j: nat, chunks: seq<Chunk>)
    requires start <= j < |body| && ReadUpTo(body, start, j, chunks)
    requires Ended(chunks)
    ensures UpdateStep(chunks, body[j]).Ok? <==> Acceptable(body, start, j)
    ensures UpdateStep(chunks, body[j]).Ok? ==> ReadUpTo(body, start, j + 1, UpdateStep(chunks, body[j]).value)
  {
    var raw := body[j];
    NextAfterEnd(body, start, j);
    Kinds(raw);
    hide KindOf, AfterEnd, IsBlank, Bare, UpdateStep, OpenChunk, LastEmpty, Ended, IsContextMarker;
    EndedNotMarked(body, start, j);
    EndedStep(chunks, raw);
  }

  lemma MarkReads(body: seq<string>, start: nat, j: nat, chunks: seq<Chunk>)
    requires start <= j < |body| && ReadUpTo(body, start, j, chunks)
    requires !Ended(chunks) && KindOf(body[j]) in {Marker, EndMark}
    ensures UpdateStep(chunks, body[j]).Ok? <==> Acceptable(body, start, j)
    ensures UpdateStep(chunks, body[j]).Ok? ==> ReadUpTo(body, start, j + 1, UpdateStep(chunks, body[j]).value)
  {
    var raw := body[j];
    NextAfterEnd(body, start, j);
    Kinds(raw);
    hide KindOf, AfterEnd, IsBlank, UpdateStep, TakeLine, IsContextMarker;
    MarkStep(chunks, raw);
  }

  lemma LineReads(body: seq<string>, start: nat, j: nat, chunks: seq<Chunk>)
    requires start <= j < |body| && ReadUpTo(body, start, j, chunks)
    requires !Ended(chunks) && KindOf(body[j]) !in {Marker, EndMark}
    ensures UpdateStep(chunks, body[j]).Ok? <==> Acceptable(body, start, j)
    ensures UpdateStep(chunks, body[j]).Ok? ==> ReadUpTo(body, start, j + 1, UpdateStep(chunks, body[j]).value)
  {
    var raw := body[j];
    NextAfterEnd(body, start, j);
    Kinds(raw);
    hide KindOf, AfterEnd, IsBlank, UpdateStep, TakeLine, IsContextMarker;
    LineStep(chunks, raw);
  }

  /** One step: refused exactly when the line is not acceptable where it stands. */
  lemma StepReads(body: seq<string>, start: nat, j: nat, chunks: seq<Chunk>)
    requires start <= j < |body| && ReadUpTo(body, start, j, chunks)
    ensures UpdateStep(chunks, body[j]).Ok? <==> Acceptable(body, start, j)
    ensures UpdateStep(chunks, body[j]).Ok? ==> ReadUpTo(body, start, j + 1, UpdateStep(chunks, body[j]).value)
  {
    hide *;
    if Ended(chunks) {
      EndedReads(body, start, j, chunks);
    } else if KindOf(body[j]) in {Marker, EndMark} {
      MarkReads(body, start, j, chunks);
    } else {
      LineReads(body, start, j, chunks);
    }
  }

  lemma {:induction false} BoundaryIsFirst(body: seq<string>, i: nat)
    requires i <= |body|
    ensures var next := NextBoundary(body, i);
            && i <= next <= |body| && (next < |body| ==> IsUpdateBoundary(body[next]))
            && forall k :: i <= k < next ==> !IsUpdateBoundary(body[k])
    decreases |body| - i
  {
    if i < |body| && !IsUpdateBoundary(body[i]) { BoundaryIsFirst(body, i + 1); }
  }

  // ---------- what becomes of the lines ----------

  /** All lines of one side, through all chunks. */
  function Side(chunks: seq<Chunk>, left: bool): seq<string> {
    if chunks == [] then []
    else
      var c := chunks[|chunks|-1];
      Side(chunks[..|chunks|-1], left) + if left then c.oldLines else c.newLines
  }

  function Headings(chunks: seq<Chunk>): seq<Option<string>> {
    seq(|chunks|, i requires 0 <= i < |chunks| => chunks[i].changeContext)
  }

  /** A context line is on both sides, a line with a sign on one; blank lines behind an end-of-file mark are on none. */
  ghost function SideOf(body: seq<string>, start: nat, j: nat, left: bool): seq<string>
    requires start <= j < |body|
  {
    if !AfterEnd(body, start, j) && (KindOf(body[j]) == Context || KindOf(body[j]) == if left then Minus else Plus)
    then [Text(body[j])] else []
  }

  ghost function SidesOf(body: seq<string>, start: nat, j: nat, left: bool): seq<string>
    requires start <= j <= |body|
  {
    if j == start then [] else SidesOf(body, start, j - 1, left) + SideOf(body, start, j - 1, left)
  }

  /** Every marker opens a chunk with its text as heading; lines before the first marker have a chunk without. */
  function HeadingOf(body: seq<string>, start: nat, j: nat): seq<Option<string>>
    requires start <= j < |body|
  {
    if KindOf(body[j]) == Marker then [if Bare(body[j]) == "@@" then None else Some(Bare(body[j])[3..])]
    else if j == start then [None] else []
  }

  function HeadingsOf(body: seq<string>, start: nat, j: nat): seq<Option<string>>
    requires start <= j <= |body|
  {
    if j == start then [] else HeadingsOf(body, start, j - 1) + HeadingOf(body, start, j - 1)
  }

  /** The chunks hold the lines before `j`: none is lost, none stands twice, and all are in order. */
  ghost predicate HoldsUpTo(body: seq<string>, start: nat, j: nat, chunks: seq<Chunk>)
    requires start <= j <= |body|
  {
    && ReadUpTo(body, start, j, chunks)
    && Side(chunks, true) == SidesOf(body, start, j, true) && Side(chunks, false) == SidesOf(body, start, j, false)
    && Headings(chunks) == HeadingsOf(body, start, j)
  }

  lemma SideNext(chunks: seq<Chunk>, c: Chunk, left: bool)
    ensures Side(chunks + [c], left) == Side(chunks, left) + if left then c.oldLines else c.newLines
  {
    assert (chunks + [c])[..|chunks|] == chunks;
  }

  lemma SideLast(chunks: seq<Chunk>, c: Chunk, left: bool, more: seq<string>)
    requires chunks != []
    requires var last := chunks[|chunks|-1];
             if left then c.oldLines == last.oldLines + more else c.newLines == last.newLines + more
    ensures Side(SetLast(chunks, c), left) == Side(chunks, left) + more
  {
    assert SetLast(chunks, c)[..|chunks|-1] == chunks[..|chunks|-1];
  }

  lemma OpenedChunk(chunks: seq<Chunk>, marker: string)
    requires IsContextMarker(marker)
    ensures var r := chunks + [OpenChunk(marker)];
            && Side(r, true) == Side(chunks, true) && Side(r, false) == Side(chunks, false)
            && Headings(r) == Headings(chunks) + [if marker == "@@" then None else Some(marker[3..])]
  {
    SideNext(chunks, OpenChunk(marker), true);
    SideNext(chunks, OpenChunk(marker), false);
    assert Side(chunks, true) + [] == Side(chunks, true) && Side(chunks, false) + [] == Side(chunks, false);
  }

  lemma ChangedLast(chunks: seq<Chunk>, c: Chunk, olds: seq<string>, news: seq<string>)
    requires var open := EnsureChunk(chunks); var last := open[|open|-1];
             c.oldLines == last.oldLines + olds && c.newLines == last.newLines + news && c.changeContext == last.changeContext
    ensures var r := SetLast(EnsureChunk(chunks), c);
            && Side(r, true) == Side(chunks, true) + olds && Side(r, false) == Side(chunks, false) + news
            && Headings(r) == Headings(chunks) + if chunks == [] then [None] else []
  {
    SideLast(EnsureChunk(chunks), c, true, olds);
    SideLast(EnsureChunk(chunks), c, false, news);
    assert [emptyChunk][..0] == [];
  }

  /** What one line adds to the chunks. */
  ghost predicate Adds(body: seq<string>, start: nat, j: nat, chunks: seq<Chunk>, more: seq<Chunk>)
    requires start <= j < |body|
  {
    && Side(more, true) == Side(chunks, true) + SideOf(body, start, j, true)
    && Side(more, false) == Side(chunks, false) + SideOf(body, start, j, false)
    && Headings(more) == Headings(chunks) + HeadingOf(body, start, j)
  }

  lemma EndedAdds(body: seq<string>, start: nat, j: nat, chunks: seq<Chunk>)
    requires start <= j < |body| && ReadUpTo(body, start, j, chunks) && UpdateStep(chunks, body[j]).Ok? && Ended(chunks)
    ensures Adds(body, start, j, chunks, UpdateStep(chunks, body[j]).value)
  {
    var raw := body[j];
    Kinds(raw);
    EndedNotMarked(body, start, j);
    EndedStep(chunks, raw);
    hide KindOf, AfterEnd, AfterMarker, IsBlank, UpdateStep, Side, Headings, IsContextMarker, OpenChunk;
    if KindOf(raw) == Marker { OpenedChunk(chunks, Bare(raw)); }
  }

  lemma MarkAdds(body: seq<string>, start: nat, j: nat, chunks: seq<Chunk>)
    requires start <= j < |body| && ReadUpTo(body, start, j, chunks) && UpdateStep(chunks, body[j]).Ok?
    requires !Ended(chunks) && KindOf(body[j]) in {Marker, EndMark}
    ensures Adds(body, start, j, chunks, UpdateStep(chunks, body[j]).value)
  {
    var raw := body[j];
    Kinds(raw);
    MarkStep(chunks, raw);
    hide KindOf, AfterEnd, AfterMarker, IsBlank, UpdateStep, Side, Headings, IsContextMarker, OpenChunk, SetLast, Bare;
    if KindOf(raw) == Marker {
      OpenedChunk(chunks, Bare(raw));
    } else {
      ChangedLast(chunks, chunks[|chunks|-1].(isEndOfFile := true), [], []);
    }
  }

  lemma LineAdds(body: seq<string>, start: nat, j: nat, chunks: seq<Chunk>)
    requires start <= j < |body| && ReadUpTo(body, start, j, chunks) && UpdateStep(chunks, body[j]).Ok?
    requires !Ended(chunks) && KindOf(body[j]) !in {Marker, EndMark}
    ensures Adds(body, start, j, chunks, UpdateStep(chunks, body[j]).value)
  {
    var raw := body[j];
    LineStep(chunks, raw);
    var open := EnsureChunk(chunks);
    Taken(open[|open|-1], raw);
    hide KindOf, AfterEnd, IsBlank, UpdateStep, TakeLine, Side, Headings, SetLast;
    ChangedLast(chunks, TakeLine(open[|open|-1], Line(raw)).value, SideOf(body, start, j, true), SideOf(body, start, j, false));
  }

  lemma StepHolds(body: seq<string>, start: nat, j: nat, chunks: seq<Chunk>)
    requires start <= j < |body| && HoldsUpTo(body, start, j, chunks) && UpdateStep(chunks, body[j]).Ok?
    ensures HoldsUpTo(body, start, j + 1, UpdateStep(chunks, body[j]).value)
  {
    hide ReadUpTo, UpdateStep, KindOf, Side, Headings, SideOf, HeadingOf;
    StepReads(body, start, j, chunks);
    if Ended(chunks) {
      EndedAdds(body, start, j, chunks);
    } else if KindOf(body[j]) in {Marker, EndMark} {
      MarkAdds(body, start, j, chunks);
    } else {
      LineAdds(body, start, j, chunks);
    }
  }

  // ---------- the grammar ----------

  ghost predicate AllAcceptable(body: seq<string>, start: nat, j: nat, next: nat)
    requires start <= j <= next <= |body|
  {
    forall k :: j <= k < next ==> Acceptable(body, start, k)
  }

  lemma FromStep(body: seq<string>, j: nat, chunks: seq<Chunk>)
    requires j <= |body|
    ensures j == |body| || IsUpdateBoundary(body[j]) ==> UpdateFrom(body, j, chunks) == Ok(chunks) && NextBoundary(body, j) == j
    ensures j < |body| && !IsUpdateBoundary(body[j]) ==>
              var step, next := UpdateStep(chunks, body[j]), j + 1;
              && NextBoundary(body, j) == NextBoundary(body, next)
              && (step.Err? ==> UpdateFrom(body, j, chunks).Err?)
              && (step.Ok? ==> UpdateFrom(body, j, chunks) == UpdateFrom(body, next, step.value))
  {}

  lemma AcceptableStep(body: seq<string>, start: nat, j: nat, next: nat)
    requires start <= j <= next <= |body|
    ensures j == next ==> AllAcceptable(body, start, j, next)
    ensures j < next ==> (AllAcceptable(body, start, j, next) <==> Acceptable(body, start, j) && AllAcceptable(body, start, j + 1, next))
  {
    hide Acceptable;
  }

  /** The update is read to its end exactly when every line of it is acceptable, and then holds all of them. */
  lemma {:induction false} ReadsExactly(body: seq<string>, start: nat, j: nat, chunks: seq<Chunk>)
    requires start <= j <= |body| && HoldsUpTo(body, start, j, chunks)
    ensures var next := NextBoundary(body, j);
            && j <= next <= |body|
            && (UpdateFrom(body, j, chunks).Ok? <==> AllAcceptable(body, start, j, next))
            && (UpdateFrom(body, j, chunks).Ok? ==> HoldsUpTo(body, start, next, UpdateFrom(body, j, chunks).value))
    decreases |body| - j
  {
    assert ReadUpTo(body, start, j, chunks);
    hide *;
    BoundaryIsFirst(body, j);
    FromStep(body, j, chunks);
    AcceptableStep(body, start, j, NextBoundary(body, j));
    if j < |body| && !IsUpdateBoundary(body[j]) {
      StepReads(body, start, j, chunks);
      if UpdateStep(chunks, body[j]).Ok? {
        StepHolds(body, start, j, chunks);
        ReadsExactly(body, start, j + 1, UpdateStep(chunks, body[j]).value);
      } else {
        BoundaryIsFirst(body, j + 1);
      }
    }
  }

  /** The lines from `start` to `next` are those of one update: up to the first line that begins another file's. */
  ghost predicate UpdateLines(body: seq<string>, start: nat, next: nat)
    requires start <= next <= |body|
  {
    && (next < |body| ==> IsUpdateBoundary(body[next]))
    && forall k :: start <= k < next ==> !IsUpdateBoundary(body[k])
  }

  lemma NothingHeld(body: seq<string>, start: nat)
    requires start <= |body|
    ensures HoldsUpTo(body, start, start, [])
  {}

  lemma Until(body: seq<string>, start: nat, next: nat)
    requires start <= next <= |body| && UpdateLines(body, start, next)
    ensures NextBoundary(body, start) == next
  {
    hide IsUpdateBoundary;
    BoundaryIsFirst(body, start);
  }

  /** The grammar of an update, from outside: there are lines, each is acceptable where it stands, and the last is
      not a marker. Everything else is refused. What is read are the lines before the next file, and each of them stands
      once, in order, on the side or sides that its sign names, or opens a chunk. */
  lemma AcceptedExactly(body: seq<string>, start: nat, next: nat)
    requires start <= next <= |body| && UpdateLines(body, start, next)
    ensures Updated(body, start).Ok? <==>
              start < next && !AfterMarker(body, start, next) && AllAcceptable(body, start, start, next)
    ensures Updated(body, start).Ok? ==>
              var (chunks, end) := Updated(body, start).value;
              && end == next
              && Side(chunks, true) == SidesOf(body, start, next, true)
              && Side(chunks, false) == SidesOf(body, start, next, false)
              && Headings(chunks) == HeadingsOf(body, start, next)
  {
    NothingHeld(body, start);
    Until(body, start, next);
    hide AllAcceptable, AfterEnd, AfterMarker, UpdateFrom, UpdateLines, NextBoundary, Side, Headings, SidesOf, HeadingsOf, LastEmpty;
    ReadsExactly(body, start, start, []);
  }

  // ---------- an added file ----------

  /** The contents that added lines stand for: each without its sign, each ended. */
  function Contents(lines: seq<string>): string {
    if lines == [] then ""
    else
      var last := lines[|lines|-1];
      Contents(lines[..|lines|-1]) + (if last == "" then "" else last[1..]) + "\n"
  }

  predicate AllAdded(lines: seq<string>) {
    forall l :: l in lines ==> l != "" && l[0] == '+'
  }

  lemma {:induction false} AddedExactlyFrom(body: seq<string>, start: nat, i: nat, next: nat)
    requires start <= i <= next <= |body| && FileLines(body, start, next) && AllAdded(body[start..i])
    ensures AddedFrom(body, i, Contents(body[start..i])).Ok? <==> AllAdded(body[start..next])
    ensures AllAdded(body[start..next]) ==> AddedFrom(body, i, Contents(body[start..i])) == Ok((Contents(body[start..next]), next))
    decreases next - i
  {
    if i < next {
      assert body[i] == body[start..next][i-start] && body[i] in body[start..next];
      if body[i] != "" && body[i][0] == '+' {
        assert body[start..i+1] == body[start..i] + [body[i]];
        assert body[start..i+1][..i-start] == body[start..i] && AllAdded(body[start..i+1]);
        AddedExactlyFrom(body, start, i + 1, next);
      }
    }
  }

  /** The lines up to the first header, however it is indented. */
  predicate FileLines(body: seq<string>, start: nat, next: nat)
    requires start <= next <= |body|
  {
    && (next < |body| ==> IsHunkHeader(body[next]))
    && forall k :: start <= k < next ==> !IsHunkHeader(body[k])
  }

  /** A file is added exactly when there are lines and all have a plus; its contents are those lines. */
  lemma AddedExactly(body: seq<string>, start: nat, next: nat)
    requires start <= next <= |body| && FileLines(body, start, next)
    ensures Added(body, start).Ok? <==> start < next && AllAdded(body[start..next])
    ensures Added(body, start).Ok? ==> Added(body, start) == Ok((Contents(body[start..next]), next))
  {
    assert body[start..start] == [];
    AddedExactlyFrom(body, start, start, next);
  }
}
