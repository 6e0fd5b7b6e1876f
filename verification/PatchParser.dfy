/** Reading a patch (internal/tools/applypatch/parser.go). */
module PatchParser {
  import opened Basics
  import opened PatchTypes
  import opened Trimming

  const beginPatch := "*** Begin Patch"
  const endPatch := "*** End Patch"
  const addFile := "*** Add File: "
  const deleteFile := "*** Delete File: "
  const updateFile := "*** Update File: "
  const moveTo := "*** Move to: "
  const endOfFile := "*** End of File"
  const changeContext := "@@ "

  datatype Problem =
    | PathIsEmpty
    | AddedLineWithoutPlus
    | NothingAdded
    | DeleteHasBody
    | NotAHeader
    | MoveNotSupported
    | MarkerExpected
    | ChunkWithoutLines
    | NotAnUpdateLine
    | NothingUpdated

  datatype ParseError =
    | FirstLine
    | LastLine
    | NoFiles
    | InvalidHunk(line: nat, problem: Problem)

  // ---------- lines ----------

  predicate HeredocStart(line: string) {
    line == "<<EOF" || line == "<<'EOF'" || line == "<<\"EOF\""
  }

  predicate HasSuffix(s: string, suffix: string) {
    |suffix| <= |s| && s[|s| - |suffix|..] == suffix
  }

  /** `patchLines`: trimmed, line endings folded, a shell here-document peeled off. */
  function PatchLines(patch: string): (lines: seq<string>)
    ensures lines != []
  {
    var lines := Split(FoldReturns(TrimSpace(patch)));
    if |lines| >= 4 && HeredocStart(lines[0]) && HasSuffix(lines[|lines|-1], "EOF")
    then lines[1..|lines|-1] else lines
  }

  predicate StartsHunk(trimmed: string) {
    trimmed == endPatch || addFile <= trimmed || deleteFile <= trimmed || updateFile <= trimmed
  }

  predicate IsHunkHeader(line: string) {
    StartsHunk(TrimSpace(line))
  }

  predicate IsUpdateBoundary(line: string) {
    StartsHunk(TrimEnd(line, {' ', '\t', '\r'}))
  }

  predicate IsContextMarker(line: string) {
    line == "@@" || changeContext <= line
  }

  predicate ChunkEmpty(c: Chunk) {
    c.oldLines == [] && c.newLines == []
  }

  predicate LastEmpty(chunks: seq<Chunk>) {
    chunks != [] && ChunkEmpty(chunks[|chunks|-1])
  }

  // ---------- an update hunk ----------

  function EnsureChunk(chunks: seq<Chunk>): (r: seq<Chunk>)
    ensures r != []
  {
    if chunks == [] then [emptyChunk] else chunks
  }

  function SetLast(chunks: seq<Chunk>, c: Chunk): seq<Chunk>
    requires chunks != []
  {
    chunks[|chunks|-1 := c]
  }

  function OpenChunk(marker: string): Chunk
    requires IsContextMarker(marker)
  {
    emptyChunk.(changeContext := if marker == "@@" then None else Some(marker[|changeContext|..]))
  }

  /** A line of the body proper, taken by the last chunk. */
  function TakeLine(c: Chunk, line: string): Result<Chunk, Problem> {
    if line == "" then Ok(PushContext(c, ""))
    else if line[0] == ' ' then Ok(PushContext(c, line[1..]))
    else if line[0] == '+' then Ok(c.(newLines := c.newLines + [line[1..]]))
    else if line[0] == '-' then Ok(c.(oldLines := c.oldLines + [line[1..]]))
    else Err(NotAnUpdateLine)
  }

  /** What one line does to the chunks read so far. */
  function UpdateStep(chunks: seq<Chunk>, raw: string): Result<seq<Chunk>, Problem> {
    var line := TrimSuffixReturn(raw);
    var trimmedEnd := TrimEnd(line, {' ', '\t'});
    var ended := chunks != [] && chunks[|chunks|-1].isEndOfFile;
    if moveTo <= trimmedEnd then Err(MoveNotSupported)
    else if ended && trimmedEnd == "" then Ok(chunks)
    else if ended && !IsContextMarker(trimmedEnd) then Err(MarkerExpected)
    else if IsContextMarker(trimmedEnd) then
      if LastEmpty(chunks) then Err(ChunkWithoutLines) else Ok(chunks + [OpenChunk(trimmedEnd)])
    else if trimmedEnd == endOfFile then
      if chunks == [] || LastEmpty(chunks) then Err(ChunkWithoutLines)
      else Ok(SetLast(chunks, chunks[|chunks|-1].(isEndOfFile := true)))
    else
      var open := EnsureChunk(chunks);
      match TakeLine(open[|open|-1], line)
      case Err(problem) => Err(problem)
      case Ok(c) => Ok(SetLast(open, c))
  }

  /** The chunks read from line `i` up to the next boundary. */
  function UpdateFrom(body: seq<string>, i: nat, chunks: seq<Chunk>): Result<seq<Chunk>, ParseError>
    decreases |body| - i
  {
    if i >= |body| || IsUpdateBoundary(body[i]) then Ok(chunks)
    else match UpdateStep(chunks, body[i])
      case Err(problem) => Err(InvalidHunk(i + 1, problem))
      case Ok(next) => UpdateFrom(body, i + 1, next)
  }

  function NextBoundary(body: seq<string>, i: nat): (next: nat)
    ensures i <= next
    decreases |body| - i
  {
    if i >= |body| || IsUpdateBoundary(body[i]) then i else NextBoundary(body, i + 1)
  }

  /** `parseUpdate`. */
  function Updated(body: seq<string>, start: nat): (r: Result<(seq<Chunk>, nat), ParseError>)
    ensures r.Ok? ==> start <= r.value.1
  {
    match UpdateFrom(body, start, [])
    case Err(e) => Err(e)
    case Ok(chunks) =>
      if chunks == [] || LastEmpty(chunks) then Err(InvalidHunk(start + 1, NothingUpdated))
      else Ok((chunks, NextBoundary(body, start)))
  }

  method UpdateLine(before: seq<Chunk>, raw: string) returns (r: Result<seq<Chunk>, Problem>)
    ensures r == UpdateStep(before, raw)
  {
    var chunks := before;
    var line := TrimSuffixReturn(raw);
    var trimmedEnd := TrimEnd(line, {' ', '\t'});
    if moveTo <= trimmedEnd {
      return Err(MoveNotSupported);
    }
    if |chunks| > 0 && chunks[|chunks|-1].isEndOfFile {
      if trimmedEnd == "" { return Ok(chunks); }
      if !IsContextMarker(trimmedEnd) { return Err(MarkerExpected); }
    }
    if IsContextMarker(trimmedEnd) {
      if |chunks| > 0 && ChunkEmpty(chunks[|chunks|-1]) { return Err(ChunkWithoutLines); }
      var chunk := emptyChunk;
      if trimmedEnd != "@@" {
        chunk := chunk.(changeContext := Some(trimmedEnd[|changeContext|..]));
      }
      chunks := chunks + [chunk];
    } else if trimmedEnd == endOfFile {
      if |chunks| == 0 || ChunkEmpty(chunks[|chunks|-1]) { return Err(ChunkWithoutLines); }
      chunks := chunks[|chunks|-1 := chunks[|chunks|-1].(isEndOfFile := true)];
    } else {
      chunks := EnsureChunk(chunks);
      var last := chunks[|chunks|-1];
      if line == "" {
        last := PushContext(last, "");
      } else if line[0] == ' ' {
        last := PushContext(last, line[1..]);
      } else if line[0] == '+' {
        last := last.(newLines := last.newLines + [line[1..]]);
      } else if line[0] == '-' {
        last := last.(oldLines := last.oldLines + [line[1..]]);
      } else {
        return Err(NotAnUpdateLine);
      }
      chunks := chunks[|chunks|-1 := last];
    }
    return Ok(chunks);
  }

  method ParseUpdate(body: seq<string>, start: nat) returns (r: Result<(seq<Chunk>, nat), ParseError>)
    ensures r == Updated(body, start)
  {
    var chunks: seq<Chunk> := [];
    var lineIndex: nat := start;
    while lineIndex < |body| && !IsUpdateBoundary(body[lineIndex])
      invariant UpdateFrom(body, start, []) == UpdateFrom(body, lineIndex, chunks)
    {
      var step := UpdateLine(chunks, body[lineIndex]);
      if step.Err? {
        return Err(InvalidHunk(lineIndex + 1, step.error));
      }
      chunks := step.value;
      lineIndex := lineIndex + 1;
    }
    var next: nat := start;
    while next < |body| && !IsUpdateBoundary(body[next])
      invariant NextBoundary(body, start) == NextBoundary(body, next)
    {
      next := next + 1;
    }
    if |chunks| == 0 || ChunkEmpty(chunks[|chunks|-1]) {
      return Err(InvalidHunk(start + 1, NothingUpdated));
    }
    return Ok((chunks, next));
  }

  // ---------- an added file ----------

  function AddedFrom(body: seq<string>, i: nat, contents: string): (r: Result<(string, nat), ParseError>)
    ensures r.Ok? ==> i <= r.value.1
    decreases |body| - i
  {
    if i >= |body| || IsHunkHeader(body[i]) then Ok((contents, i))
    else if "+" <= body[i] then AddedFrom(body, i + 1, contents + body[i][1..] + "\n")
    else Err(InvalidHunk(i + 1, AddedLineWithoutPlus))
  }

  function Added(body: seq<string>, start: nat): (r: Result<(string, nat), ParseError>)
    ensures r.Ok? ==> start < r.value.1
  {
    match AddedFrom(body, start, "")
    case Err(e) => Err(e)
    case Ok((contents, next)) =>
      if next == start then Err(InvalidHunk(start + 1, NothingAdded)) else Ok((contents, next))
  }

  method ParseAdd(body: seq<string>, start: nat) returns (r: Result<(string, nat), ParseError>)
    ensures r == Added(body, start)
  {
    var lineIndex: nat := start;
    var contents := "";
    var added := false;
    while lineIndex < |body| && !IsHunkHeader(body[lineIndex])
      invariant start <= lineIndex && added == (lineIndex != start)
      invariant AddedFrom(body, start, "") == AddedFrom(body, lineIndex, contents)
    {
      if !("+" <= body[lineIndex]) {
        return Err(InvalidHunk(lineIndex + 1, AddedLineWithoutPlus));
      }
      contents := contents + body[lineIndex][1..] + "\n";
      added := true;
      lineIndex := lineIndex + 1;
    }
    if !added {
      return Err(InvalidHunk(lineIndex + 1, NothingAdded));
    }
    return Ok((contents, lineIndex));
  }

  // ---------- the whole patch ----------

  /** The hunk whose header is line `i`, and the line after it. */
  function HunkAt(body: seq<string>, i: nat): (r: Result<(Hunk, nat), ParseError>)
    requires i < |body|
    ensures r.Ok? ==> i < r.value.1
  {
    var line := TrimSpace(body[i]);
    if addFile <= line then
      var path := TrimSpace(line[|addFile|..]);
      if path == "" then Err(InvalidHunk(i + 1, PathIsEmpty))
      else match Added(body, i + 1)
        case Err(e) => Err(e)
        case Ok((contents, next)) => Ok((AddFile(path, contents), next))
    else if deleteFile <= line then
      var path := TrimSpace(line[|deleteFile|..]);
      if path == "" then Err(InvalidHunk(i + 1, PathIsEmpty))
      else if i + 1 < |body| && !IsHunkHeader(body[i+1]) then Err(InvalidHunk(i + 2, DeleteHasBody))
      else Ok((DeleteFile(path), i + 1))
    else if updateFile <= line then
      var path := TrimSpace(line[|updateFile|..]);
      if path == "" then Err(InvalidHunk(i + 1, PathIsEmpty))
      else match Updated(body, i + 1)
        case Err(e) => Err(e)
        case Ok((chunks, next)) => Ok((UpdateFile(path, chunks), next))
    else Err(InvalidHunk(i + 1, NotAHeader))
  }

  function HunksFrom(body: seq<string>, i: nat, hunks: seq<Hunk>): Result<seq<Hunk>, ParseError>
    decreases |body| - i
  {
    if i >= |body| then Ok(hunks)
    else match HunkAt(body, i)
      case Err(e) => Err(e)
      case Ok((hunk, next)) => HunksFrom(body, next, hunks + [hunk])
  }

  function Parsed(patch: string): Result<seq<Hunk>, ParseError> {
    var lines := PatchLines(patch);
    if TrimSpace(lines[0]) != beginPatch then Err(FirstLine)
    else if TrimSpace(lines[|lines|-1]) != endPatch then Err(LastLine)
    else match HunksFrom(lines[..|lines|-1], 1, [])
      case Err(e) => Err(e)
      case Ok(hunks) => if hunks == [] then Err(NoFiles) else Ok(hunks)
  }

  method ParseHunk(body: seq<string>, lineIndex: nat) returns (r: Result<(Hunk, nat), ParseError>)
    requires lineIndex < |body|
    ensures r == HunkAt(body, lineIndex)
  {
    var line := TrimSpace(body[lineIndex]);
    if addFile <= line {
      var path := TrimSpace(line[|addFile|..]);
      if path == "" {
        return Err(InvalidHunk(lineIndex + 1, PathIsEmpty));
      }
      var added := ParseAdd(body, lineIndex + 1);
      if added.Err? { return Err(added.error); }
      return Ok((AddFile(path, added.value.0), added.value.1));
    } else if deleteFile <= line {
      var path := TrimSpace(line[|deleteFile|..]);
      if path == "" {
        return Err(InvalidHunk(lineIndex + 1, PathIsEmpty));
      }
      if lineIndex + 1 < |body| && !IsHunkHeader(body[lineIndex + 1]) {
        return Err(InvalidHunk(lineIndex + 2, DeleteHasBody));
      }
      return Ok((DeleteFile(path), lineIndex + 1));
    } else if updateFile <= line {
      var path := TrimSpace(line[|updateFile|..]);
      if path == "" {
        return Err(InvalidHunk(lineIndex + 1, PathIsEmpty));
      }
      var updated := ParseUpdate(body, lineIndex + 1);
      if updated.Err? { return Err(updated.error); }
      return Ok((UpdateFile(path, updated.value.0), updated.value.1));
    }
    return Err(InvalidHunk(lineIndex + 1, NotAHeader));
  }

  method ParsePatch(patch: string) returns (r: Result<seq<Hunk>, ParseError>)
    ensures r == Parsed(patch)
  {
    var lines := PatchLines(patch);
    if TrimSpace(lines[0]) != beginPatch {
      return Err(FirstLine);
    }
    if TrimSpace(lines[|lines|-1]) != endPatch {
      return Err(LastLine);
    }
    var body := lines[..|lines|-1];
    var hunks: seq<Hunk> := [];
    var lineIndex: nat := 1;
    while lineIndex < |body|
      invariant HunksFrom(body, 1, []) == HunksFrom(body, lineIndex, hunks)
      decreases |body| - lineIndex
    {
      var hunk := ParseHunk(body, lineIndex);
      if hunk.Err? { return Err(hunk.error); }
      hunks := hunks + [hunk.value.0];
      lineIndex := hunk.value.1;
    }
    if |hunks| == 0 {
      return Err(NoFiles);
    }
    return Ok(hunks);
  }

  // ---------- every parsed chunk is well linked ----------

  predicate ChunksSound(chunks: seq<Chunk>) {
    && (forall i :: 0 <= i < |chunks| ==> LinkedContexts(chunks[i]))
    && (forall i :: 0 <= i < |chunks| - 1 ==> !ChunkEmpty(chunks[i]))
  }

  predicate HunkSound(h: Hunk) {
    match h
    case AddFile(path, contents) => path != "" && contents != ""
    case DeleteFile(path) => path != ""
    case UpdateFile(path, chunks) =>
      path != "" && chunks != [] && ChunksSound(chunks) && !LastEmpty(chunks)
  }

  lemma TakeLineSound(c: Chunk, line: string)
    requires LinkedContexts(c)
    ensures var r := TakeLine(c, line); r.Ok? ==> LinkedContexts(r.value)
  {
    PushKeepsLinks(c, if line == "" then "" else line[1..]);
  }

  lemma StepSound(chunks: seq<Chunk>, raw: string)
    requires ChunksSound(chunks)
    ensures var r := UpdateStep(chunks, raw); r.Ok? ==> ChunksSound(r.value)
  {
    var open := EnsureChunk(chunks);
    assert ChunksSound(open);
    TakeLineSound(open[|open|-1], TrimSuffixReturn(raw));
  }

  lemma {:induction false} UpdateSound(body: seq<string>, i: nat, chunks: seq<Chunk>)
    requires ChunksSound(chunks)
    ensures var r := UpdateFrom(body, i, chunks); r.Ok? ==> ChunksSound(r.value)
    decreases |body| - i
  {
    if i < |body| && !IsUpdateBoundary(body[i]) {
      StepSound(chunks, body[i]);
      var next := UpdateStep(chunks, body[i]);
      if next.Ok? { UpdateSound(body, i + 1, next.value); }
    }
  }

  lemma {:induction false} AddedGrows(body: seq<string>, i: nat, contents: string)
    ensures var r := AddedFrom(body, i, contents);
            r.Ok? ==> |contents| <= |r.value.0| && (i < r.value.1 ==> r.value.0 != "")
    decreases |body| - i
  {
    if i < |body| && !IsHunkHeader(body[i]) && "+" <= body[i] {
      AddedGrows(body, i + 1, contents + body[i][1..] + "\n");
    }
  }

  lemma UpdatedSound(body: seq<string>, start: nat)
    ensures var r := Updated(body, start);
            r.Ok? ==> r.value.0 != [] && ChunksSound(r.value.0) && !LastEmpty(r.value.0)
  {
    UpdateSound(body, start, []);
  }

  lemma AddedSound(body: seq<string>, start: nat)
    ensures var r := Added(body, start); r.Ok? ==> r.value.0 != ""
  {
    AddedGrows(body, start, "");
  }

  lemma HunkAtSound(body: seq<string>, i: nat)
    requires i < |body|
    ensures var r := HunkAt(body, i); r.Ok? ==> HunkSound(r.value.0)
  {
    hide Updated, Added, TrimSpace, IsHunkHeader, ChunksSound, LastEmpty;
    UpdatedSound(body, i + 1);
    AddedSound(body, i + 1);
  }

  lemma {:induction false} HunksSound(body: seq<string>, i: nat, hunks: seq<Hunk>)
    requires forall h :: h in hunks ==> HunkSound(h)
    ensures var r := HunksFrom(body, i, hunks); r.Ok? ==> forall h :: h in r.value ==> HunkSound(h)
    decreases |body| - i
  {
    if i < |body| && HunkAt(body, i).Ok? {
      HunkAtSound(body, i);
      var (hunk, next) := HunkAt(body, i).value;
      HunksSound(body, next, hunks + [hunk]);
    }
  }

  /** Whatever text comes in: in every accepted patch the context positions of every chunk rise
      strictly on both sides and point at equal lines, and no chunk is empty. */
  lemma ParsedSound(patch: string)
    ensures var r := Parsed(patch); r.Ok? ==> r.value != [] && forall h :: h in r.value ==> HunkSound(h)
  {
    var lines := PatchLines(patch);
    HunksSound(lines[..|lines|-1], 1, []);
  }
}
