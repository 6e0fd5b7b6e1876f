/** Where the chunks of a patch land, and when a patch is refused
    (internal/tools/applypatch/seek_sequence.go and file_update.go). */
module PatchMatching {
  import opened Basics
  import opened SourceText
  import opened PatchTypes
  import opened FileUpdate
  import opened PatchMeaning

  // ---------- the search ----------

  /** A place the search may answer: behind the start, inside the file, and for an end-of-file chunk at its end. */
  predicate IsPlace(lines: seq<string>, pattern: seq<string>, start: nat, endOfFile: bool, j: nat) {
    start <= j && j + |pattern| <= |lines| && (endOfFile ==> j + |pattern| == |lines|)
  }

  predicate MatchedBy(passes: Passes, p: nat, lines: seq<string>, pattern: seq<string>, j: nat) {
    p < |passes| && MatchesAt(passes[p], lines, pattern, j)
  }

  ghost predicate Findable(passes: Passes, lines: seq<string>, pattern: seq<string>, start: nat, endOfFile: bool) {
    exists p: nat, j: nat :: IsPlace(lines, pattern, start, endOfFile, j) && MatchedBy(passes, p, lines, pattern, j)
  }

  /** The first place of pass `p`, when no stricter pass has any place at all. */
  ghost predicate FoundBy(passes: Passes, p: nat, lines: seq<string>, pattern: seq<string>, start: nat, endOfFile: bool, r: nat) {
    && IsPlace(lines, pattern, start, endOfFile, r) && MatchedBy(passes, p, lines, pattern, r)
    && (forall j: nat :: IsPlace(lines, pattern, start, endOfFile, j) && j < r ==> !MatchedBy(passes, p, lines, pattern, j))
    && (forall q: nat, j: nat :: q < p && IsPlace(lines, pattern, start, endOfFile, j) ==> !MatchedBy(passes, q, lines, pattern, j))
  }

  ghost predicate FoundAt(passes: Passes, lines: seq<string>, pattern: seq<string>, start: nat, endOfFile: bool, r: nat) {
    exists p: nat :: FoundBy(passes, p, lines, pattern, start, endOfFile, r)
  }

  /** Every answer of `FirstPass` is the first place of the first pass that has one. */
  lemma {:induction false} FirstPassMeans(passes: seq<string -> string>, lines: seq<string>, pattern: seq<string>, i: nat)
    ensures match FirstPass(passes, lines, pattern, i)
            case None => forall p, j :: 0 <= p < |passes| && i <= j ==> !MatchesAt(passes[p], lines, pattern, j)
            case Some(r) =>
              exists p :: 0 <= p < |passes| && i <= r && MatchesAt(passes[p], lines, pattern, r)
                && (forall j :: i <= j < r ==> !MatchesAt(passes[p], lines, pattern, j))
                && (forall q, j :: 0 <= q < p && i <= j ==> !MatchesAt(passes[q], lines, pattern, j))
  {
    hide MatchesAt;
    if passes != [] {
      var here := FirstFrom(passes[0], lines, pattern, i);
      if here.Some? {
        assert MatchesAt(passes[0], lines, pattern, here.value);
      } else {
        FirstPassMeans(passes[1..], lines, pattern, i);
        var r := FirstPass(passes[1..], lines, pattern, i);
        if r.Some? {
          var p :| 0 <= p < |passes[1..]| && MatchesAt(passes[1..][p], lines, pattern, r.value)
            && (forall j :: i <= j < r.value ==> !MatchesAt(passes[1..][p], lines, pattern, j))
            && (forall q, j :: 0 <= q < p && i <= j ==> !MatchesAt(passes[1..][q], lines, pattern, j));
          assert passes[p+1] == passes[1..][p];
          forall q, j | 0 <= q < p + 1 && i <= j
            ensures !MatchesAt(passes[q], lines, pattern, j)
          {
            if q > 0 { assert passes[q] == passes[1..][q-1]; }
          }
        } else {
          forall p, j | 0 <= p < |passes| && i <= j
            ensures !MatchesAt(passes[p], lines, pattern, j)
          {
            if p > 0 { assert passes[p] == passes[1..][p-1]; }
          }
        }
      }
    }
  }

  /** The places are those from the search start on. */
  lemma PlacesFromStart(lines: seq<string>, pattern: seq<string>, start: nat, endOfFile: bool, j: nat)
    requires |pattern| <= |lines|
    ensures IsPlace(lines, pattern, start, endOfFile, j) <==> SearchStart(lines, pattern, start, endOfFile) <= j && j + |pattern| <= |lines|
  {}

  /** The search fails exactly when no pass matches at any place, and otherwise answers the first place of the
      strictest pass that has one. */
  lemma SeekMeans(passes: Passes, lines: seq<string>, pattern: seq<string>, start: nat, endOfFile: bool)
    requires pattern != []
    ensures var r := Seek(passes, lines, pattern, start, endOfFile);
            && (r.Some? <==> Findable(passes, lines, pattern, start, endOfFile))
            && (r.Some? ==> FoundAt(passes, lines, pattern, start, endOfFile, r.value))
  {
    var r := Seek(passes, lines, pattern, start, endOfFile);
    if |pattern| <= |lines| {
      var from := SearchStart(lines, pattern, start, endOfFile);
      forall j: nat
        ensures IsPlace(lines, pattern, start, endOfFile, j) <==> from <= j && j + |pattern| <= |lines|
      {
        PlacesFromStart(lines, pattern, start, endOfFile, j);
      }
      FirstPassMeans(passes, lines, pattern, from);
      hide SearchStart, IsPlace, FirstPass;
      if r.Some? {
        var p :| 0 <= p < |passes| && from <= r.value && MatchesAt(passes[p], lines, pattern, r.value)
          && (forall j :: from <= j < r.value ==> !MatchesAt(passes[p], lines, pattern, j))
          && (forall q, j :: 0 <= q < p && from <= j ==> !MatchesAt(passes[q], lines, pattern, j));
        assert MatchedBy(passes, p, lines, pattern, r.value);
        hide MatchesAt;
        assert FoundBy(passes, p, lines, pattern, start, endOfFile, r.value);
      }
    }
  }

  // ---------- one chunk ----------

  /** Where the search for a chunk's lines begins: behind its context line if it names one. */
  ghost predicate BeginsAt(passes: Passes, lines: seq<string>, c: Chunk, lineIndex: nat, at: nat) {
    if c.changeContext.None? then at == lineIndex
    else at > 0 && FoundAt(passes, lines, [c.changeContext.value], lineIndex, false, at - 1)
  }

  ghost predicate HasContext(passes: Passes, lines: seq<string>, c: Chunk, lineIndex: nat) {
    c.changeContext.Some? ==> Findable(passes, lines, [c.changeContext.value], lineIndex, false)
  }

  /** The old lines without a blank one at their end; nothing else is ever tried instead of them. */
  predicate EndsBlank(lines: seq<string>) {
    lines != [] && lines[|lines|-1] == ""
  }

  ghost predicate HasLines(passes: Passes, lines: seq<string>, c: Chunk, at: nat) {
    || Findable(passes, lines, c.oldLines, at, c.isEndOfFile)
    || (EndsBlank(c.oldLines)
        && (|c.oldLines| == 1 || Findable(passes, lines, c.oldLines[..|c.oldLines|-1], at, c.isEndOfFile)))
  }

  /** A chunk lands at the first place of its old lines; only when these have none, and end in a blank line, at that
      of the lines before it, and then a blank line at the end of the new lines is left out as well. */
  ghost predicate LandsAt(passes: Passes, lines: seq<string>, c: Chunk, at: nat, l: Landing) {
    if Findable(passes, lines, c.oldLines, at, c.isEndOfFile) then
      && l.pattern == c.oldLines && l.newLines == c.newLines
      && FoundAt(passes, lines, c.oldLines, at, c.isEndOfFile, l.start)
    else
      && EndsBlank(c.oldLines) && l.pattern == c.oldLines[..|c.oldLines|-1]
      && l.newLines == (if EndsBlank(c.newLines) then c.newLines[..|c.newLines|-1] else c.newLines)
      && (if |c.oldLines| == 1 then l.start == at
          else FoundAt(passes, lines, l.pattern, at, c.isEndOfFile, l.start))
  }

  lemma ContextMeans(passes: Passes, lines: seq<string>, c: Chunk, lineIndex: nat)
    ensures var at := ContextIndex(passes, lines, c, lineIndex);
            && (at.Some? <==> HasContext(passes, lines, c, lineIndex))
            && (at.Some? ==> BeginsAt(passes, lines, c, lineIndex, at.value))
  {
    if c.changeContext.Some? {
      SeekMeans(passes, lines, [c.changeContext.value], lineIndex, false);
      hide Seek, FoundAt, Findable;
    }
  }

  lemma LandMeans(passes: Passes, lines: seq<string>, c: Chunk, at: nat)
    requires c.oldLines != []
    ensures var l := Land(passes, lines, c, at);
            && (l.Some? <==> HasLines(passes, lines, c, at))
            && (l.Some? ==> LandsAt(passes, lines, c, at, l.value))
  {
    SeekMeans(passes, lines, c.oldLines, at, c.isEndOfFile);
    var shorter := c.oldLines[..|c.oldLines|-1];
    if |c.oldLines| > 1 {
      SeekMeans(passes, lines, shorter, at, c.isEndOfFile);
    } else {
      assert Seek(passes, lines, shorter, at, c.isEndOfFile) == Some(at);
    }
    hide Seek, FoundAt, Findable;
  }

  /** One chunk: the context is looked for first, then the old lines; each may be missing, and the error says
      which.  What it contributes starts where it lands, and the next search begins behind it. */
  lemma ChunkMeans(passes: Passes, lines: seq<string>, c: Chunk, lineIndex: nat)
    requires LinkedContexts(c)
    ensures var r := ChunkStep(passes, lines, c, lineIndex);
            && (r == Err(ContextNotFound) <==> !HasContext(passes, lines, c, lineIndex))
            && (HasContext(passes, lines, c, lineIndex) ==> exists at: nat ::
                  && BeginsAt(passes, lines, c, lineIndex, at)
                  && (r == Err(LinesNotFound) <==> c.oldLines != [] && !HasLines(passes, lines, c, at))
                  && (c.oldLines == [] ==> r == Ok(Step([Replacement(|lines|, 0, c.newLines)], at)))
                  && (r.Ok? && c.oldLines != [] ==> exists l: Landing ::
                        LandsAt(passes, lines, c, at, l)
                        && r == Ok(Step(PiecesOf(l.start, l.pattern, l.newLines, c), l.start + |l.pattern|))))
  {
    ContextMeans(passes, lines, c, lineIndex);
    var at := ContextIndex(passes, lines, c, lineIndex);
    hide ContextIndex, HasContext, BeginsAt;
    if at.Some? {
      if c.oldLines != [] {
        LandMeans(passes, lines, c, at.value);
        hide Land, LandsAt, HasLines;
      }
      assert BeginsAt(passes, lines, c, lineIndex, at.value);
    }
  }

  // ---------- what a landed chunk makes of its block ----------

  /** The pairs from number `k` on that name a context line of the landed block for new line `j`. */
  predicate KeepsLine(contexts: seq<(nat, nat)>, k: nat, span: nat, o: nat, j: nat) {
    o < span && exists i :: k <= i < |contexts| && contexts[i] == (o, j)
  }

  /** `block` is the new lines from `n` on, with the file's own line at every context place of the landed block. */
  ghost predicate Merged(lines: seq<string>, start: nat, span: nat, news: seq<string>, contexts: seq<(nat, nat)>, k: nat, n: nat, block: seq<string>)
    requires start + span <= |lines| && n <= |news|
  {
    && |block| == |news| - n
    && (forall o: nat, j :: n <= j < |news| && KeepsLine(contexts, k, span, o, j) ==> block[j - n] == lines[start + o])
    && (forall j :: n <= j < |news| && (forall o: nat :: !KeepsLine(contexts, k, span, o, j)) ==> block[j - n] == news[j])
  }

  lemma MergedStop(lines: seq<string>, start: nat, span: nat, news: seq<string>, contexts: seq<(nat, nat)>, k: nat, n: nat)
    requires start + span <= |lines| && n <= |news| && Ascending(contexts)
    requires k == |contexts| || (k < |contexts| && (contexts[k].0 >= span || contexts[k].1 >= |news|))
    ensures Merged(lines, start, span, news, contexts, k, n, news[n..])
  {
    forall o: nat, j | n <= j < |news|
      ensures !KeepsLine(contexts, k, span, o, j)
    {
      forall i | k <= i < |contexts| && contexts[i] == (o, j)
        ensures o >= span
      {
        assert i == k || (contexts[k].0 < contexts[i].0 && contexts[k].1 < contexts[i].1);
      }
    }
  }

  lemma MergedStep(lines: seq<string>, start: nat, span: nat, news: seq<string>, contexts: seq<(nat, nat)>, k: nat, n: nat, later: seq<string>)
    requires start + span <= |lines| && Ascending(contexts) && k < |contexts|
    requires contexts[k].0 < span && n <= contexts[k].1 < |news|
    requires Merged(lines, start, span, news, contexts, k + 1, contexts[k].1 + 1, later)
    ensures Merged(lines, start, span, news, contexts, k, n, news[n..contexts[k].1] + ([lines[start + contexts[k].0]] + later))
  {
    var (o', n') := contexts[k];
    var block := news[n..n'] + ([lines[start + o']] + later);
    forall o: nat, j | n <= j < |news|
      ensures KeepsLine(contexts, k, span, o, j) ==> block[j - n] == lines[start + o]
      ensures j != n' ==> (KeepsLine(contexts, k, span, o, j) <==> KeepsLine(contexts, k + 1, span, o, j))
      ensures j < n' ==> !KeepsLine(contexts, k, span, o, j)
    {
      PairAt(contexts, k, span, o, j);
      if j > n' { assert block[j - n] == later[j - n' - 1]; }
    }
    assert KeepsLine(contexts, k, span, o', n');
    forall j | n <= j < |news| && (forall o: nat :: !KeepsLine(contexts, k, span, o, j))
      ensures block[j - n] == news[j]
    {
      assert j != n';
      if j > n' {
        assert block[j - n] == later[j - n' - 1];
        var next := k + 1;
        forall o: nat
          ensures !KeepsLine(contexts, next, span, o, j)
        {
          PairAt(contexts, k, span, o, j);
          assert !KeepsLine(contexts, k, span, o, j);
        }
      }
    }
  }

  lemma PairAt(contexts: seq<(nat, nat)>, k: nat, span: nat, o: nat, j: nat)
    requires Ascending(contexts) && k < |contexts|
    ensures KeepsLine(contexts, k, span, o, j) <==> (o < span && contexts[k] == (o, j)) || KeepsLine(contexts, k + 1, span, o, j)
    ensures KeepsLine(contexts, k + 1, span, o, j) ==> j > contexts[k].1
  {}

  /** The pieces of a landed chunk, put into the file, give the new lines with the file's own context lines. */
  lemma {:induction false} PiecesKeepContext(lines: seq<string>, start: nat, pattern: seq<string>, news: seq<string>, contexts: seq<(nat, nat)>,
                                             k: nat, o: nat, n: nat) returns (block: seq<string>)
    requires o <= |pattern| && n <= |news| && start + |pattern| <= |lines| && Ascending(contexts) && Reached(contexts, k, o, n)
    ensures var p := Pieces(start, pattern, news, contexts, k, o, n);
            && Ordered(p, start + o, start + |pattern|)
            && Replaced(lines, p, start + o, start + |pattern|) == block
    ensures Merged(lines, start, |pattern|, news, contexts, k, n, block)
    decreases |contexts| - k
  {
    hide Replaced, Pieces, PieceBefore, Ordered, Merged;
    if k == |contexts| || contexts[k].0 >= |pattern| || contexts[k].1 >= |news| {
      PiecesStop(start, pattern, news, contexts, k, o, n);
      PieceReplaces(lines, start, news, o, n, |pattern|, |news|);
      block := news[n..];
      assert block == news[n..|news|];
      MergedStop(lines, start, |pattern|, news, contexts, k, n);
    } else {
      var (o', n') := contexts[k];
      PiecesUnfold(start, pattern, news, contexts, k, o, n);
      var later := PiecesKeepContext(lines, start, pattern, news, contexts, k + 1, o' + 1, n' + 1);
      PieceReplaces(lines, start, news, o, n, o', n');
      assert lines[start + o'..start + o' + 1] == [lines[start + o']];
      JoinPieces(lines, PieceBefore(start, news, o, n, o', n'), Pieces(start, pattern, news, contexts, k + 1, o' + 1, n' + 1),
                 start + o, start + o', start + |pattern|, news[n..n'], lines[start + o'], later);
      block := news[n..n'] + ([lines[start + o']] + later);
      MergedStep(lines, start, |pattern|, news, contexts, k, n, later);
    }
  }

  /** Wherever a chunk lands, strictly or loosely, the stretch it landed on becomes its new lines, except that context
      lines stay as the file has them. */
  lemma LandedBlock(lines: seq<string>, c: Chunk, l: Landing)
    requires LinkedContexts(c) && l.start + |l.pattern| <= |lines|
    ensures var p := PiecesOf(l.start, l.pattern, l.newLines, c);
            && Ordered(p, l.start, l.start + |l.pattern|)
            && Merged(lines, l.start, |l.pattern|, l.newLines, c.contexts, 0, 0, Replaced(lines, p, l.start, l.start + |l.pattern|))
  {
    var block := PiecesKeepContext(lines, l.start, l.pattern, l.newLines, c.contexts, 0, 0, 0);
  }

  // ---------- all chunks ----------

  function Joined(parts: seq<seq<Replacement>>): seq<Replacement> {
    if parts == [] then [] else parts[0] + Joined(parts[1..])
  }

  /** The chunks from number `i` on, one behind the other: `at` are the positions their searches begin from,
      `parts` what each contributes. */
  predicate Trail(passes: Passes, lines: seq<string>, chunks: seq<Chunk>, i: nat, at: seq<nat>, parts: seq<seq<Replacement>>)
    requires AllLinked(chunks)
  {
    && |at| == |parts| + 1 && i + |parts| <= |chunks|
    && forall k :: 0 <= k < |parts| ==> ChunkStep(passes, lines, chunks[i + k], at[k]) == Ok(Step(parts[k], at[k+1]))
  }

  lemma TrailGrows(passes: Passes, lines: seq<string>, chunks: seq<Chunk>, i: nat, first: nat, step: Step, at: seq<nat>, parts: seq<seq<Replacement>>)
    requires AllLinked(chunks) && i < |chunks| && ChunkStep(passes, lines, chunks[i], first) == Ok(step)
    requires Trail(passes, lines, chunks, i + 1, at, parts) && at[0] == step.next
    ensures Trail(passes, lines, chunks, i, [first] + at, [step.replacements] + parts)
    ensures Joined([step.replacements] + parts) == step.replacements + Joined(parts)
  {
    var more, all := [first] + at, [step.replacements] + parts;
    assert all[1..] == parts;
    hide ChunkStep;
    forall k | 0 <= k < |all|
      ensures ChunkStep(passes, lines, chunks[i + k], more[k]) == Ok(Step(all[k], more[k+1]))
    {
      if k > 0 { assert i + k == i + 1 + (k - 1); }
    }
  }

  /** Either every chunk lands and contributes its part, or the answer is the error of the first one that does not. */
  lemma {:induction false} UnsortedMeans(passes: Passes, lines: seq<string>, chunks: seq<Chunk>, i: nat, lineIndex: nat)
    returns (at: seq<nat>, parts: seq<seq<Replacement>>)
    requires AllLinked(chunks) && i <= |chunks|
    ensures Trail(passes, lines, chunks, i, at, parts) && at[0] == lineIndex
    ensures match Unsorted(passes, lines, chunks, i, lineIndex)
            case Ok(u) => i + |parts| == |chunks| && u == Joined(parts)
            case Err(e) => i + |parts| < |chunks| && ChunkStep(passes, lines, chunks[i + |parts|], at[|parts|]) == Err(e)
    decreases |chunks| - i
  {
    at, parts := [lineIndex], [];
    if i < |chunks| {
      var r := ChunkStep(passes, lines, chunks[i], lineIndex);
      hide ChunkStep;
      if r.Ok? {
        var step := r.value;
        var at', parts' := UnsortedMeans(passes, lines, chunks, i + 1, step.next);
        TrailGrows(passes, lines, chunks, i, lineIndex, step, at', parts');
        at, parts := [lineIndex] + at', [step.replacements] + parts';
      }
    }
  }
}
