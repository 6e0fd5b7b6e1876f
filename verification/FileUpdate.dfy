/** Turning the chunks of a patch into ordered replacements
    (internal/tools/applypatch/file_update.go and seek_sequence.go). */
module FileUpdate {
  import opened Basics
  import opened SourceText
  import opened PatchTypes

  /** The passes of the fuzzy search: the identity first, then ever looser normal forms. */
  type Passes = p: seq<string -> string> | |p| > 0 && forall s :: p[0](s) == s witness [(s: string) => s]

  // ---------- the search ----------

  predicate MatchesAt(norm: string -> string, lines: seq<string>, pattern: seq<string>, i: nat) {
    && i + |pattern| <= |lines|
    && forall k :: 0 <= k < |pattern| ==> norm(lines[i + k]) == norm(pattern[k])
  }

  function FirstFrom(norm: string -> string, lines: seq<string>, pattern: seq<string>, i: nat): (r: Option<nat>)
    ensures r.Some? ==> i <= r.value && MatchesAt(norm, lines, pattern, r.value)
    ensures r.Some? ==> forall j :: i <= j < r.value ==> !MatchesAt(norm, lines, pattern, j)
    ensures r.None? ==> forall j :: i <= j ==> !MatchesAt(norm, lines, pattern, j)
    decreases |lines| - i
  {
    if i + |pattern| > |lines| then None
    else if MatchesAt(norm, lines, pattern, i) then Some(i)
    else if i == |lines| then None
    else FirstFrom(norm, lines, pattern, i + 1)
  }

  function FirstPass(passes: seq<string -> string>, lines: seq<string>, pattern: seq<string>, i: nat): (r: Option<nat>)
    ensures r.Some? ==> i <= r.value <= r.value + |pattern| <= |lines|
  {
    if passes == [] then None
    else
      var r := FirstFrom(passes[0], lines, pattern, i);
      if r.Some? then r else FirstPass(passes[1..], lines, pattern, i)
  }

  function SearchStart(lines: seq<string>, pattern: seq<string>, start: nat, endOfFile: bool): nat {
    if endOfFile && |lines| - |pattern| > start then |lines| - |pattern| else start
  }

  /** What `seekSequence` finds. */
  function Seek(passes: Passes, lines: seq<string>, pattern: seq<string>, start: nat, endOfFile: bool): (r: Option<nat>)
    ensures r.Some? && start <= |lines| ==> start <= r.value <= r.value + |pattern| <= |lines|
  {
    if pattern == [] then Some(start)
    else if |pattern| > |lines| then None
    else FirstPass(passes, lines, pattern, SearchStart(lines, pattern, start, endOfFile))
  }

  /** An exact occurrence always beats a fuzzy one, and the first exact one wins. */
  lemma ExactMatchWins(passes: Passes, lines: seq<string>, pattern: seq<string>, start: nat, endOfFile: bool, i: nat)
    requires pattern != [] && SearchStart(lines, pattern, start, endOfFile) <= i
    requires i + |pattern| <= |lines| && lines[i..i+|pattern|] == pattern
    ensures var r := Seek(passes, lines, pattern, start, endOfFile);
            r.Some? && r.value <= i && lines[r.value..r.value+|pattern|] == pattern
  {
    var from := SearchStart(lines, pattern, start, endOfFile);
    assert MatchesAt(passes[0], lines, pattern, i) by {
      var window := lines[i..i+|pattern|];
      assert forall k :: 0 <= k < |pattern| ==> window[k] == lines[i + k];
    }
    var r := FirstFrom(passes[0], lines, pattern, from).value;
    var window := lines[r..r+|pattern|];
    assert forall k :: 0 <= k < |pattern| ==> window[k] == passes[0](lines[r + k]) && pattern[k] == passes[0](pattern[k]);
  }

  method TryAt(norm: string -> string, lines: seq<string>, pattern: seq<string>, index: nat) returns (matched: bool)
    requires index + |pattern| <= |lines|
    ensures matched == MatchesAt(norm, lines, pattern, index)
  {
    for offset := 0 to |pattern|
      invariant forall k :: 0 <= k < offset ==> norm(lines[index + k]) == norm(pattern[k])
    {
      if norm(lines[index + offset]) != norm(pattern[offset]) {
        return false;
      }
    }
    return true;
  }

  /** One pass over the lines: the inner search loop. */
  method SearchPass(norm: string -> string, lines: seq<string>, pattern: seq<string>, searchStart: nat) returns (r: Option<nat>)
    requires |pattern| <= |lines|
    ensures r == FirstFrom(norm, lines, pattern, searchStart)
  {
    hide MatchesAt;
    var index := searchStart;
    while index <= |lines| - |pattern|
      invariant searchStart <= index
      invariant FirstFrom(norm, lines, pattern, searchStart) == FirstFrom(norm, lines, pattern, index)
    {
      var matched := TryAt(norm, lines, pattern, index);
      if matched {
        return Some(index);
      }
      index := index + 1;
    }
    return None;
  }

  method SeekSequence(passes: Passes, lines: seq<string>, pattern: seq<string>, start: nat, endOfFile: bool) returns (r: Option<nat>)
    ensures r == Seek(passes, lines, pattern, start, endOfFile)
  {
    hide MatchesAt, FirstFrom;
    if |pattern| == 0 { return Some(start); }
    if |pattern| > |lines| { return None; }
    var searchStart := start;
    if endOfFile {
      var endStart := |lines| - |pattern|;
      if endStart > searchStart {
        searchStart := endStart;
      }
    }
    for p := 0 to |passes|
      invariant FirstPass(passes, lines, pattern, searchStart) == FirstPass(passes[p..], lines, pattern, searchStart)
    {
      assert passes[p..][0] == passes[p] && passes[p..][1..] == passes[p+1..];
      var found := SearchPass(passes[p], lines, pattern, searchStart);
      if found.Some? {
        return found;
      }
    }
    return None;
  }

  // ---------- one chunk ----------

  /** Context pairs before `k` are done, up to old line `o` and new line `n`. */
  predicate Reached(contexts: seq<(nat, nat)>, k: nat, o: nat, n: nat) {
    k <= |contexts| && (k < |contexts| ==> o <= contexts[k].0 && n <= contexts[k].1)
  }

  function PieceBefore(start: nat, newLines: seq<string>, oldStart: nat, newStart: nat, o: nat, n: nat): seq<Replacement>
    requires oldStart <= o && newStart <= n <= |newLines|
  {
    if oldStart != o || newStart != n then [Replacement(start + oldStart, o - oldStart, newLines[newStart..n])] else []
  }

  /** The replacements of one matched chunk from context pair `k` on: everything between two context lines. */
  function Pieces(start: nat, pattern: seq<string>, newLines: seq<string>, contexts: seq<(nat, nat)>, k: nat, oldStart: nat, newStart: nat): seq<Replacement>
    requires oldStart <= |pattern| && newStart <= |newLines|
    requires Ascending(contexts) && Reached(contexts, k, oldStart, newStart)
    decreases |contexts| - k
  {
    if k == |contexts| || contexts[k].0 >= |pattern| || contexts[k].1 >= |newLines| then
      PieceBefore(start, newLines, oldStart, newStart, |pattern|, |newLines|)
    else
      var (o, n) := contexts[k];
      PieceBefore(start, newLines, oldStart, newStart, o, n) + Pieces(start, pattern, newLines, contexts, k + 1, o + 1, n + 1)
  }

  lemma PieceOrdered(start: nat, newLines: seq<string>, oldStart: nat, newStart: nat, o: nat, n: nat)
    requires oldStart <= o && newStart <= n <= |newLines|
    ensures Ordered(PieceBefore(start, newLines, oldStart, newStart, o, n), start + oldStart, start + o)
  {}

  lemma {:induction false} PiecesOrdered(start: nat, pattern: seq<string>, newLines: seq<string>, contexts: seq<(nat, nat)>, k: nat, oldStart: nat, newStart: nat)
    requires oldStart <= |pattern| && newStart <= |newLines| && Ascending(contexts) && Reached(contexts, k, oldStart, newStart)
    ensures Ordered(Pieces(start, pattern, newLines, contexts, k, oldStart, newStart), start + oldStart, start + |pattern|)
    decreases |contexts| - k
  {
    hide Pieces, PieceBefore, Ordered;
    if k == |contexts| || contexts[k].0 >= |pattern| || contexts[k].1 >= |newLines| {
      PiecesStop(start, pattern, newLines, contexts, k, oldStart, newStart);
      PieceOrdered(start, newLines, oldStart, newStart, |pattern|, |newLines|);
    } else {
      var (o, n) := contexts[k];
      PiecesUnfold(start, pattern, newLines, contexts, k, oldStart, newStart);
      var later := Pieces(start, pattern, newLines, contexts, k + 1, o + 1, n + 1);
      PiecesOrdered(start, pattern, newLines, contexts, k + 1, o + 1, n + 1);
      OrderedLower(later, start + o, start + o + 1, start + |pattern|);
      PieceOrdered(start, newLines, oldStart, newStart, o, n);
      OrderedConcat(PieceBefore(start, newLines, oldStart, newStart, o, n), later, start + oldStart, start + o, start + |pattern|);
    }
  }

  lemma PiecesStep(start: nat, pattern: seq<string>, newLines: seq<string>, contexts: seq<(nat, nat)>, k: nat, oldStart: nat, newStart: nat,
                   done: seq<Replacement>)
    requires oldStart <= |pattern| && newStart <= |newLines| && Ascending(contexts) && Reached(contexts, k, oldStart, newStart)
    requires k < |contexts| && contexts[k].0 < |pattern| && contexts[k].1 < |newLines|
    ensures var (o, n) := contexts[k];
            && Reached(contexts, k + 1, o + 1, n + 1)
            && done + Pieces(start, pattern, newLines, contexts, k, oldStart, newStart)
               == done + PieceBefore(start, newLines, oldStart, newStart, o, n) + Pieces(start, pattern, newLines, contexts, k + 1, o + 1, n + 1)
  {
    PiecesUnfold(start, pattern, newLines, contexts, k, oldStart, newStart);
    hide Pieces, PieceBefore;
    var (o, n) := contexts[k];
    AppendPiece(done, PieceBefore(start, newLines, oldStart, newStart, o, n), Pieces(start, pattern, newLines, contexts, k + 1, o + 1, n + 1));
  }

  lemma PiecesUnfold(start: nat, pattern: seq<string>, newLines: seq<string>, contexts: seq<(nat, nat)>, k: nat, oldStart: nat, newStart: nat)
    requires oldStart <= |pattern| && newStart <= |newLines| && Ascending(contexts) && Reached(contexts, k, oldStart, newStart)
    requires k < |contexts| && contexts[k].0 < |pattern| && contexts[k].1 < |newLines|
    ensures var (o, n) := contexts[k];
            && Reached(contexts, k + 1, o + 1, n + 1)
            && Pieces(start, pattern, newLines, contexts, k, oldStart, newStart)
               == PieceBefore(start, newLines, oldStart, newStart, o, n) + Pieces(start, pattern, newLines, contexts, k + 1, o + 1, n + 1)
  {}

  lemma PiecesStop(start: nat, pattern: seq<string>, newLines: seq<string>, contexts: seq<(nat, nat)>, k: nat, oldStart: nat, newStart: nat)
    requires oldStart <= |pattern| && newStart <= |newLines| && Ascending(contexts) && Reached(contexts, k, oldStart, newStart)
    requires k == |contexts| || contexts[k].0 >= |pattern| || contexts[k].1 >= |newLines|
    ensures Pieces(start, pattern, newLines, contexts, k, oldStart, newStart)
            == PieceBefore(start, newLines, oldStart, newStart, |pattern|, |newLines|)
  {}

  method AddPiece(pieces: seq<Replacement>, start: nat, newLines: seq<string>, oldStart: nat, newStart: nat, o: nat, n: nat) returns (more: seq<Replacement>)
    requires oldStart <= o && newStart <= n <= |newLines|
    ensures more == pieces + PieceBefore(start, newLines, oldStart, newStart, o, n)
  {
    if oldStart != o || newStart != n {
      return pieces + [Replacement(start + oldStart, o - oldStart, newLines[newStart..n])];
    }
    return pieces;
  }

  method ChunkPieces(start: nat, pattern: seq<string>, newLines: seq<string>, contexts: seq<(nat, nat)>) returns (pieces: seq<Replacement>)
    requires Ascending(contexts)
    ensures pieces == Pieces(start, pattern, newLines, contexts, 0, 0, 0)
  {
    hide Pieces, PieceBefore;
    pieces := [];
    var oldStart: nat, newStart: nat := 0, 0;
    var i: nat := 0;
    while i < |contexts| && contexts[i].0 < |pattern| && contexts[i].1 < |newLines|
      invariant i <= |contexts| && oldStart <= |pattern| && newStart <= |newLines| && Reached(contexts, i, oldStart, newStart)
      invariant Pieces(start, pattern, newLines, contexts, 0, 0, 0) == pieces + Pieces(start, pattern, newLines, contexts, i, oldStart, newStart)
    {
      PiecesStep(start, pattern, newLines, contexts, i, oldStart, newStart, pieces);
      pieces := AddPiece(pieces, start, newLines, oldStart, newStart, contexts[i].0, contexts[i].1);
      oldStart, newStart, i := contexts[i].0 + 1, contexts[i].1 + 1, i + 1;
    }
    PiecesStop(start, pattern, newLines, contexts, i, oldStart, newStart);
    pieces := AddPiece(pieces, start, newLines, oldStart, newStart, |pattern|, |newLines|);
  }

  lemma AppendPiece(a: seq<Replacement>, b: seq<Replacement>, c: seq<Replacement>)
    ensures a + (b + c) == a + b + c
  {}

  // ---------- all chunks ----------

  /** Where a chunk with old lines lands, and the lines actually used after the trailing-blank retry. */
  datatype Landing = Landing(start: nat, pattern: seq<string>, newLines: seq<string>)

  function DropBlank(lines: seq<string>): seq<string> {
    if lines != [] && lines[|lines|-1] == "" then lines[..|lines|-1] else lines
  }

  function Land(passes: Passes, lines: seq<string>, c: Chunk, lineIndex: nat): (r: Option<Landing>)
    ensures r.Some? && lineIndex <= |lines| ==> lineIndex <= r.value.start <= r.value.start + |r.value.pattern| <= |lines|
  {
    var found := Seek(passes, lines, c.oldLines, lineIndex, c.isEndOfFile);
    if found.Some? then Some(Landing(found.value, c.oldLines, c.newLines))
    else if c.oldLines != [] && c.oldLines[|c.oldLines|-1] == "" then
      var pattern := DropBlank(c.oldLines);
      var again := Seek(passes, lines, pattern, lineIndex, c.isEndOfFile);
      if again.Some? then Some(Landing(again.value, pattern, DropBlank(c.newLines))) else None
    else None
  }

  function ContextIndex(passes: Passes, lines: seq<string>, c: Chunk, lineIndex: nat): (r: Option<nat>)
    ensures r.Some? && lineIndex <= |lines| ==> lineIndex <= r.value <= |lines|
  {
    if c.changeContext.None? then Some(lineIndex)
    else match Seek(passes, lines, [c.changeContext.value], lineIndex, false)
      case None => None
      case Some(index) => Some(index + 1)
  }

  datatype UpdateError = ContextNotFound | LinesNotFound

  datatype Step = Step(replacements: seq<Replacement>, next: nat)

  /** What one chunk contributes, and where the search for the next one starts. */
  function ChunkStep(passes: Passes, lines: seq<string>, c: Chunk, lineIndex: nat): Result<Step, UpdateError>
    requires LinkedContexts(c)
  {
    var at := ContextIndex(passes, lines, c, lineIndex);
    if at.None? then Err(ContextNotFound)
    else if c.oldLines == [] then Ok(Step([Replacement(|lines|, 0, c.newLines)], at.value))
    else
      var landing := Land(passes, lines, c, at.value);
      if landing.None? then Err(LinesNotFound)
      else
        var Landing(start, pattern, newLines) := landing.value;
        Ok(Step(PiecesOf(start, pattern, newLines, c), start + |pattern|))
  }

  /** Putting the replacements already found in front of the outcome of the remaining chunks. */
  function Prefixed(done: seq<Replacement>, later: Result<seq<Replacement>, UpdateError>): Result<seq<Replacement>, UpdateError> {
    match later
    case Ok(l) => Ok(done + l)
    case Err(e) => Err(e)
  }

  predicate AllLinked(chunks: seq<Chunk>) {
    forall c :: c in chunks ==> LinkedContexts(c)
  }

  /** The replacements of the chunks from number `i` on, in chunk order, before sorting. */
  function Unsorted(passes: Passes, lines: seq<string>, chunks: seq<Chunk>, i: nat, lineIndex: nat): Result<seq<Replacement>, UpdateError>
    requires AllLinked(chunks) && i <= |chunks|
    decreases |chunks| - i
  {
    if i == |chunks| then Ok([])
    else match ChunkStep(passes, lines, chunks[i], lineIndex)
      case Err(e) => Err(e)
      case Ok(step) => Prefixed(step.replacements, Unsorted(passes, lines, chunks, i + 1, step.next))
  }

  function PiecesOf(start: nat, pattern: seq<string>, newLines: seq<string>, c: Chunk): seq<Replacement>
    requires LinkedContexts(c)
  {
    Pieces(start, pattern, newLines, c.contexts, 0, 0, 0)
  }

  // ---------- the stable sort ----------

  function Insert(sorted: seq<Replacement>, r: Replacement): seq<Replacement> {
    if sorted == [] || sorted[|sorted|-1].start <= r.start then sorted + [r]
    else Insert(sorted[..|sorted|-1], r) + [sorted[|sorted|-1]]
  }

  /** `sort.SliceStable` by start position, as repeated stable insertion. */
  function StableSort(rs: seq<Replacement>): seq<Replacement> {
    if rs == [] then [] else Insert(StableSort(rs[..|rs|-1]), rs[|rs|-1])
  }

  function Below(rs: seq<Replacement>, n: nat): seq<Replacement> {
    if rs == [] then []
    else Below(rs[..|rs|-1], n) + (if rs[|rs|-1].start < n then [rs[|rs|-1]] else [])
  }

  function AtEnd(rs: seq<Replacement>, n: nat): seq<Replacement> {
    if rs == [] then []
    else AtEnd(rs[..|rs|-1], n) + (if rs[|rs|-1].start >= n then [rs[|rs|-1]] else [])
  }

  lemma {:induction false} BelowConcat(a: seq<Replacement>, b: seq<Replacement>, n: nat)
    ensures Below(a + b, n) == Below(a, n) + Below(b, n)
    ensures AtEnd(a + b, n) == AtEnd(a, n) + AtEnd(b, n)
  {
    if b == [] {
      assert a + b == a;
    } else {
      assert (a + b)[..|a + b|-1] == a + b[..|b|-1];
      BelowConcat(a, b[..|b|-1], n);
    }
  }

  predicate Nondecreasing(rs: seq<Replacement>) {
    forall i, j :: 0 <= i < j < |rs| ==> rs[i].start <= rs[j].start
  }

  predicate AllBelow(rs: seq<Replacement>, n: nat) { forall r :: r in rs ==> r.start < n }

  predicate AllAt(rs: seq<Replacement>, n: nat) { forall r :: r in rs ==> r.start == n }

  lemma {:induction false} InsertBelow(low: seq<Replacement>, high: seq<Replacement>, n: nat, r: Replacement)
    requires Nondecreasing(low + [r]) && AllAt(high, n) && r.start < n
    ensures Insert(low + high, r) == low + [r] + high
    decreases |high|
  {
    if high == [] {
      assert low + high == low;
      if low != [] { assert (low + [r])[|low|-1].start <= (low + [r])[|low|].start; }
    } else {
      var all, last := low + high, high[|high|-1];
      assert last in high;
      assert all[..|all|-1] == low + high[..|high|-1];
      InsertBelow(low, high[..|high|-1], n, r);
    }
  }

  lemma {:induction false} FiltersHold(rs: seq<Replacement>, n: nat)
    requires forall r :: r in rs ==> r.start <= n
    ensures AllBelow(Below(rs, n), n) && AllAt(AtEnd(rs, n), n)
  {
    if rs != [] {
      assert forall r :: r in rs[..|rs|-1] ==> r in rs;
      FiltersHold(rs[..|rs|-1], n);
    }
  }

  lemma InsertLast(sorted: seq<Replacement>, r: Replacement)
    requires forall x :: x in sorted ==> x.start <= r.start
    ensures Insert(sorted, r) == sorted + [r]
  {
    if sorted != [] { assert sorted[|sorted|-1] in sorted; }
  }

  lemma PartitionStep(low: seq<Replacement>, high: seq<Replacement>, n: nat, r: Replacement)
    requires AllBelow(low, n) && AllAt(high, n) && r.start <= n
    requires r.start < n ==> Nondecreasing(low + [r])
    ensures Insert(low + high, r) == if r.start < n then low + [r] + high else low + (high + [r])
  {
    if r.start < n {
      InsertBelow(low, high, n, r);
    } else {
      InsertLast(low + high, r);
    }
  }

  lemma NondecreasingFront(a: seq<Replacement>, b: seq<Replacement>)
    requires Nondecreasing(a + b)
    ensures Nondecreasing(a)
  {
    assert forall i :: 0 <= i < |a| ==> (a + b)[i] == a[i];
  }

  lemma FiltersUnfold(rs: seq<Replacement>, n: nat)
    requires rs != []
    ensures var front, last := rs[..|rs|-1], rs[|rs|-1];
            && Below(rs, n) == Below(front, n) + (if last.start < n then [last] else [])
            && AtEnd(rs, n) == AtEnd(front, n) + (if last.start < n then [] else [last])
  {}

  /** When only insertions at position `n` are out of order, sorting moves exactly those to the end. */
  lemma {:induction false} SortIsPartition(rs: seq<Replacement>, n: nat)
    requires (forall r :: r in rs ==> r.start <= n) && Nondecreasing(Below(rs, n))
    ensures StableSort(rs) == Below(rs, n) + AtEnd(rs, n)
  {
    if rs != [] {
      var front, last := rs[..|rs|-1], rs[|rs|-1];
      var low, high := Below(front, n), AtEnd(front, n);
      var lastBelow, lastAt := if last.start < n then [last] else [], if last.start < n then [] else [last];
      assert last in rs && forall r :: r in front ==> r in rs;
      FiltersUnfold(rs, n);
      SortUnfold(rs);
      hide *;
      NondecreasingFront(low, lastBelow);
      SortIsPartition(front, n);
      FiltersHold(front, n);
      PartitionStep(low, high, n, last);
      assert low + [] == low && high + [] == high;
      assert StableSort(rs) == Below(rs, n) + AtEnd(rs, n);
    }
  }

  lemma SortUnfold(rs: seq<Replacement>)
    requires rs != []
    ensures StableSort(rs) == Insert(StableSort(rs[..|rs|-1]), rs[|rs|-1])
  {}

  // ---------- bounds, order, no overlap ----------

  /** The shape of the unsorted list: without the insertions at the end of the file it is ordered. */
  predicate Shaped(rs: seq<Replacement>, from: nat, n: nat) {
    && Ordered(Below(rs, n), from, n)
    && forall r :: r in rs ==> r.start + r.oldCount <= n
  }

  lemma ShapeInsertion(later: seq<Replacement>, from: nat, at: nat, n: nat, newLines: seq<string>)
    requires Shaped(later, at, n) && from <= at
    ensures Shaped([Replacement(n, 0, newLines)] + later, from, n)
  {
    BelowConcat([Replacement(n, 0, newLines)], later, n);
    assert Below([Replacement(n, 0, newLines)], n) == [];
    assert [] + Below(later, n) == Below(later, n);
    OrderedLower(Below(later, n), from, at, n);
  }

  lemma ShapeMatched(pieces: seq<Replacement>, later: seq<Replacement>, from: nat, start: nat, mid: nat, n: nat)
    requires Ordered(pieces, start, mid) && from <= start && mid <= n && Shaped(later, mid, n)
    ensures Shaped(pieces + later, from, n)
  {
    OrderedReach(pieces, start, mid);
    OrderedBelow(pieces, start, mid, n);
    BelowConcat(pieces, later, n);
    OrderedConcat(Below(pieces, n), Below(later, n), start, mid, n);
    OrderedLower(Below(pieces, n) + Below(later, n), from, start, n);
  }

  lemma PiecesOfOrdered(start: nat, pattern: seq<string>, newLines: seq<string>, c: Chunk)
    requires LinkedContexts(c)
    ensures Ordered(PiecesOf(start, pattern, newLines, c), start, start + |pattern|)
  {
    PiecesOrdered(start, pattern, newLines, c.contexts, 0, 0, 0);
  }

  lemma StepShape(passes: Passes, lines: seq<string>, c: Chunk, lineIndex: nat)
    requires LinkedContexts(c) && lineIndex <= |lines| && ChunkStep(passes, lines, c, lineIndex).Ok?
    ensures var Step(rs, next) := ChunkStep(passes, lines, c, lineIndex).value;
            && lineIndex <= next <= |lines|
            && (c.oldLines == [] ==> rs == [Replacement(|lines|, 0, c.newLines)])
            && (c.oldLines != [] ==> exists start :: lineIndex <= start && Ordered(rs, start, next))
  {
    if c.oldLines != [] {
      var at := ContextIndex(passes, lines, c, lineIndex).value;
      var Landing(start, pattern, newLines) := Land(passes, lines, c, at).value;
      PiecesOfOrdered(start, pattern, newLines, c);
      assert lineIndex <= start && Ordered(PiecesOf(start, pattern, newLines, c), start, start + |pattern|);
    }
  }

  lemma {:induction false} UnsortedShape(passes: Passes, lines: seq<string>, chunks: seq<Chunk>, i: nat, lineIndex: nat)
    requires AllLinked(chunks) && i <= |chunks| && lineIndex <= |lines|
    ensures var u := Unsorted(passes, lines, chunks, i, lineIndex);
            u.Ok? ==> Shaped(u.value, lineIndex, |lines|)
    decreases |chunks| - i
  {
    if i < |chunks| && Unsorted(passes, lines, chunks, i, lineIndex).Ok? {
      StepShape(passes, lines, chunks[i], lineIndex);
      var Step(rs, next) := ChunkStep(passes, lines, chunks[i], lineIndex).value;
      UnsortedShape(passes, lines, chunks, i + 1, next);
      var later := Unsorted(passes, lines, chunks, i + 1, next).value;
      if chunks[i].oldLines == [] {
        ShapeInsertion(later, lineIndex, next, |lines|, chunks[i].newLines);
      } else {
        var start :| lineIndex <= start && Ordered(rs, start, next);
        ShapeMatched(rs, later, lineIndex, start, next, |lines|);
      }
    }
  }

  lemma OneFiltered(r: Replacement, rest: seq<Replacement>, n: nat)
    ensures Below([r] + rest, n) == (if r.start < n then [r] else []) + Below(rest, n)
    ensures AtEnd([r] + rest, n) == (if r.start < n then [] else [r]) + AtEnd(rest, n)
  {
    BelowConcat([r], rest, n);
    assert [r][..0] == [] && Below([], n) == [] && AtEnd([], n) == [];
    assert Below([r], n) == (if r.start < n then [r] else []) && AtEnd([r], n) == (if r.start < n then [] else [r]);
  }

  /** In an ordered list only insertions can sit at the very end, and they come last. */
  lemma {:induction false} OrderedBelow(rs: seq<Replacement>, from: nat, to: nat, n: nat)
    requires Ordered(rs, from, to) && to <= n
    ensures Ordered(Below(rs, n), from, to)
    ensures rs == Below(rs, n) + AtEnd(rs, n)
    decreases |rs|
  {
    if rs != [] {
      var r, next := rs[0], rs[0].start + rs[0].oldCount;
      assert rs == [r] + rs[1..];
      OneFiltered(r, rs[1..], n);
      OrderedBelow(rs[1..], next, to, n);
      if r.start < n {
        assert Below(rs, n)[1..] == Below(rs[1..], n);
      } else {
        OrderedReach(rs[1..], next, to);
        AllEnd(rs[1..], next, to, n);
      }
    }
  }

  lemma {:induction false} AllEnd(rs: seq<Replacement>, from: nat, to: nat, n: nat)
    requires Ordered(rs, from, to) && n <= from
    ensures Below(rs, n) == [] && AtEnd(rs, n) == rs
    decreases |rs|
  {
    if rs != [] {
      assert rs == [rs[0]] + rs[1..];
      OneFiltered(rs[0], rs[1..], n);
      AllEnd(rs[1..], rs[0].start + rs[0].oldCount, to, n);
    }
  }

  lemma {:induction false} OrderedNondecreasing(rs: seq<Replacement>, from: nat, to: nat)
    requires Ordered(rs, from, to)
    ensures Nondecreasing(rs)
    decreases |rs|
  {
    if rs != [] {
      var next := rs[0].start + rs[0].oldCount;
      OrderedNondecreasing(rs[1..], next, to);
      OrderedReach(rs[1..], next, to);
      forall i, j | 0 <= i < j < |rs|
        ensures rs[i].start <= rs[j].start
      {
        assert rs[j] == rs[1..][j-1];
        if i == 0 { assert rs[j] in rs[1..]; } else { assert rs[i] == rs[1..][i-1]; }
      }
    }
  }

  lemma {:induction false} AtEndOrdered(rs: seq<Replacement>, n: nat)
    requires forall r :: r in rs ==> r.start == n && r.oldCount == 0
    ensures Ordered(rs, n, n)
    decreases |rs|
  {
    if rs != [] {
      assert rs[0] in rs;
      assert forall r :: r in rs[1..] ==> r in rs;
      AtEndOrdered(rs[1..], n);
    }
  }

  lemma {:induction false} AtEndMembers(rs: seq<Replacement>, n: nat)
    ensures forall r :: r in AtEnd(rs, n) ==> r in rs && r.start >= n
  {
    if rs != [] { AtEndMembers(rs[..|rs|-1], n); }
  }

  /** The sorted list is in range, sorted and free of overlaps for every patch and every
      file, the trailing-blank retry included, so splicing never leaves the file. */
  lemma SortedIsOrdered(passes: Passes, lines: seq<string>, chunks: seq<Chunk>)
    requires AllLinked(chunks)
    ensures var u := Unsorted(passes, lines, chunks, 0, 0);
            u.Ok? ==> Ordered(StableSort(u.value), 0, |lines|)
                      && StableSort(u.value) == Below(u.value, |lines|) + AtEnd(u.value, |lines|)
  {
    var u := Unsorted(passes, lines, chunks, 0, 0);
    if u.Ok? {
      var n := |lines|;
      UnsortedShape(passes, lines, chunks, 0, 0);
      OrderedNondecreasing(Below(u.value, n), 0, n);
      SortIsPartition(u.value, n);
      AtEndMembers(u.value, n);
      AtEndOrdered(AtEnd(u.value, n), n);
      OrderedConcat(Below(u.value, n), AtEnd(u.value, n), 0, n, n);
    }
  }

  /** The first search of a chunk, and the retry without a trailing blank line. */
  method LandChunk(passes: Passes, lines: seq<string>, chunk: Chunk, lineIndex: nat) returns (r: Option<Landing>)
    requires chunk.oldLines != []
    ensures r == Land(passes, lines, chunk, lineIndex)
  {
    var pattern, newLines := chunk.oldLines, chunk.newLines;
    var start := SeekSequence(passes, lines, pattern, lineIndex, chunk.isEndOfFile);
    if start.None? && pattern[|pattern|-1] == "" {
      pattern := pattern[..|pattern|-1];
      if |newLines| > 0 && newLines[|newLines|-1] == "" {
        newLines := newLines[..|newLines|-1];
      }
      start := SeekSequence(passes, lines, pattern, lineIndex, chunk.isEndOfFile);
    }
    if start.None? { return None; }
    return Some(Landing(start.value, pattern, newLines));
  }

  method AfterContext(passes: Passes, lines: seq<string>, chunk: Chunk, lineIndex: nat) returns (at: Option<nat>)
    ensures at == ContextIndex(passes, lines, chunk, lineIndex)
  {
    if chunk.changeContext.None? { return Some(lineIndex); }
    var index := SeekSequence(passes, lines, [chunk.changeContext.value], lineIndex, false);
    if index.None? { return None; }
    return Some(index.value + 1);
  }

  method LinkedPieces(start: nat, pattern: seq<string>, newLines: seq<string>, chunk: Chunk) returns (pieces: seq<Replacement>)
    requires LinkedContexts(chunk)
    ensures pieces == PiecesOf(start, pattern, newLines, chunk)
  {
    pieces := ChunkPieces(start, pattern, newLines, chunk.contexts);
  }

  method UpdateChunk(passes: Passes, lines: seq<string>, chunk: Chunk, lineIndex: nat) returns (r: Result<Step, UpdateError>)
    requires LinkedContexts(chunk)
    ensures r == ChunkStep(passes, lines, chunk, lineIndex)
  {
    var at := AfterContext(passes, lines, chunk, lineIndex);
    if at.None? { return Err(ContextNotFound); }
    if |chunk.oldLines| == 0 {
      return Ok(Step([Replacement(|lines|, 0, chunk.newLines)], at.value));
    }
    var landing := LandChunk(passes, lines, chunk, at.value);
    if landing.None? { return Err(LinesNotFound); }
    var Landing(start, pattern, newLines) := landing.value;
    var pieces := LinkedPieces(start, pattern, newLines, chunk);
    return Ok(Step(pieces, start + |pattern|));
  }

  method CollectReplacements(passes: Passes, lines: seq<string>, chunks: seq<Chunk>) returns (r: Result<seq<Replacement>, UpdateError>)
    requires AllLinked(chunks)
    ensures r == Unsorted(passes, lines, chunks, 0, 0)
  {
    var replacements: seq<Replacement> := [];
    var lineIndex: nat := 0;
    PrefixedNothing(Unsorted(passes, lines, chunks, 0, 0));
    for i := 0 to |chunks|
      invariant Unsorted(passes, lines, chunks, 0, 0) == Prefixed(replacements, Unsorted(passes, lines, chunks, i, lineIndex))
    {
      var step := UpdateChunk(passes, lines, chunks[i], lineIndex);
      if step.Err? { return Err(step.error); }
      PrefixedStep(replacements, step.value.replacements, Unsorted(passes, lines, chunks, i + 1, step.value.next));
      replacements := replacements + step.value.replacements;
      lineIndex := step.value.next;
    }
    assert replacements + [] == replacements;
    return Ok(replacements);
  }

  method ComputeReplacements(passes: Passes, lines: seq<string>, chunks: seq<Chunk>) returns (r: Result<seq<Replacement>, UpdateError>)
    requires AllLinked(chunks)
    ensures match Unsorted(passes, lines, chunks, 0, 0)
            case Ok(u) => r == Ok(StableSort(u)) && Ordered(StableSort(u), 0, |lines|)
            case Err(e) => r == Err(e)
  {
    var replacements := CollectReplacements(passes, lines, chunks);
    if replacements.Err? { return replacements; }
    SortedIsOrdered(passes, lines, chunks);
    return Ok(StableSort(replacements.value));
  }

  lemma PrefixedNothing(later: Result<seq<Replacement>, UpdateError>)
    ensures Prefixed([], later) == later
  {
    if later.Ok? { assert [] + later.value == later.value; }
  }

  lemma PrefixedStep(done: seq<Replacement>, more: seq<Replacement>, later: Result<seq<Replacement>, UpdateError>)
    ensures Prefixed(done + more, later) == Prefixed(done, Prefixed(more, later))
  {
    if later.Ok? { assert done + more + later.value == done + (more + later.value); }
  }
}
