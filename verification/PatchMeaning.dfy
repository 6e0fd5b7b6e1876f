/** What an update patch does to a file: the replacements of file_update.go, sorted and
    spliced, against the plain reading "each matched block becomes its new lines". */
module PatchMeaning {
  import opened Basics
  import opened SourceText
  import opened PatchTypes
  import opened FileUpdate

  // ---------- splicing seen on the texts ----------

  function Replaced(lines: seq<string>, rs: seq<Replacement>, from: nat, to: nat): seq<string>
    requires to <= |lines| && Ordered(rs, from, to)
    decreases |rs|
  {
    if rs == [] then lines[from..to]
    else
      OrderedReach(rs, from, to);
      assert rs[0] in rs;
      lines[from..rs[0].start] + rs[0].newLines + Replaced(lines, rs[1..], rs[0].start + rs[0].oldCount, to)
  }

  lemma {:induction false} SplicedTexts(lines: seq<SourceLine>, ending: string, rs: seq<Replacement>, from: nat, to: nat)
    requires to <= |lines| && Ordered(rs, from, to)
    ensures Texts(Spliced(lines, ending, rs, from, to)) == Replaced(Texts(lines), rs, from, to)
    decreases |rs|
  {
    OrderedReach(rs, from, to);
    if rs != [] {
      assert rs[0] in rs;
      var next := rs[0].start + rs[0].oldCount;
      SplicedTexts(lines, ending, rs[1..], next, to);
      assert Texts(lines[from..rs[0].start]) == Texts(lines)[from..rs[0].start];
      assert Texts(NewSourceLines(rs[0].newLines, ending)) == rs[0].newLines;
    }
  }

  lemma FilledTexts(lines: seq<SourceLine>, ending: string)
    ensures Texts(Filled(lines, ending)) == Texts(lines)
  {}

  lemma SliceSplit(s: seq<string>, a: nat, b: nat, c: nat)
    requires a <= b <= c <= |s|
    ensures s[a..c] == s[a..b] + s[b..c]
  {}

  lemma Regroup(a: seq<string>, b: seq<string>, c: seq<string>, d: seq<string>)
    ensures a + b + c + d == a + (b + c + d)
  {}

  lemma Assoc(a: seq<string>, b: seq<string>, c: seq<string>)
    ensures a + b + c == a + (b + c)
  {}

  lemma ReplacedUnfold(lines: seq<string>, r: Replacement, rest: seq<Replacement>, from: nat, to: nat)
    requires to <= |lines| && from <= r.start && Ordered(rest, r.start + r.oldCount, to)
    ensures r.start + r.oldCount <= to && Ordered([r] + rest, from, to)
    ensures Replaced(lines, [r] + rest, from, to)
            == lines[from..r.start] + r.newLines + Replaced(lines, rest, r.start + r.oldCount, to)
  {
    OrderedReach(rest, r.start + r.oldCount, to);
    assert ([r] + rest)[1..] == rest;
  }

  lemma ReplacedFromEarlier(lines: seq<string>, rs: seq<Replacement>, from: nat, mid: nat, to: nat)
    requires from <= mid && to <= |lines| && Ordered(rs, mid, to)
    ensures mid <= to && Ordered(rs, from, to)
    ensures Replaced(lines, rs, from, to) == lines[from..mid] + Replaced(lines, rs, mid, to)
  {
    OrderedReach(rs, mid, to);
    if rs == [] {
      SliceSplit(lines, from, mid, to);
    } else {
      var r := rs[0];
      assert rs == [r] + rs[1..] && r in rs;
      ReplacedUnfold(lines, r, rs[1..], from, to);
      ReplacedUnfold(lines, r, rs[1..], mid, to);
      SliceSplit(lines, from, mid, r.start);
      Regroup(lines[from..mid], lines[mid..r.start], r.newLines, Replaced(lines, rs[1..], r.start + r.oldCount, to));
    }
  }

  lemma {:induction false} ReplacedConcat(lines: seq<string>, a: seq<Replacement>, b: seq<Replacement>, from: nat, mid: nat, to: nat)
    requires to <= |lines| && Ordered(a, from, mid) && Ordered(b, mid, to)
    ensures from <= mid <= to && Ordered(a + b, from, to)
    ensures Replaced(lines, a + b, from, to) == Replaced(lines, a, from, mid) + Replaced(lines, b, mid, to)
    decreases |a|
  {
    OrderedReach(b, mid, to);
    OrderedReach(a, from, mid);
    if a == [] {
      assert a + b == b;
      ReplacedFromEarlier(lines, b, from, mid, to);
    } else {
      var r := a[0];
      var next := r.start + r.oldCount;
      assert a == [r] + a[1..] && a + b == [r] + (a[1..] + b) && r in a;
      ReplacedConcat(lines, a[1..], b, next, mid, to);
      ReplacedUnfold(lines, r, a[1..] + b, from, to);
      ReplacedUnfold(lines, r, a[1..], from, mid);
      Assoc(lines[from..r.start] + r.newLines, Replaced(lines, a[1..], next, mid), Replaced(lines, b, mid, to));
    }
  }

  function Flat(rs: seq<Replacement>): seq<string> {
    if rs == [] then [] else rs[0].newLines + Flat(rs[1..])
  }

  lemma {:induction false} FlatConcat(a: seq<Replacement>, b: seq<Replacement>)
    ensures Flat(a + b) == Flat(a) + Flat(b)
  {
    if a == [] {
      assert a + b == b;
    } else {
      assert (a + b)[0] == a[0] && (a + b)[1..] == a[1..] + b;
      FlatConcat(a[1..], b);
    }
  }

  /** Insertions at the end of a range just append. */
  lemma {:induction false} ReplacedAtEnd(lines: seq<string>, rs: seq<Replacement>, n: nat)
    requires n <= |lines| && Ordered(rs, n, n)
    ensures Replaced(lines, rs, n, n) == Flat(rs)
    decreases |rs|
  {
    if rs == [] {
      assert lines[n..n] == [];
    } else {
      OrderedReach(rs, n, n);
      assert rs[0] in rs && rs == [rs[0]] + rs[1..];
      ReplacedAtEnd(lines, rs[1..], n);
      ReplacedUnfold(lines, rs[0], rs[1..], n, n);
      assert lines[n..n] + rs[0].newLines == rs[0].newLines;
    }
  }

  // ---------- one exactly matched chunk ----------

  /** New lines that follow the last context line of a chunk whose old side ends in context. */
  function TailOf(c: Chunk): seq<string>
    requires LinkedContexts(c)
  {
    TailBehind(c.oldLines, c.newLines, c.contexts)
  }

  function TailBehind(olds: seq<string>, news: seq<string>, contexts: seq<(nat, nat)>): seq<string>
    requires Linked(olds, news, contexts)
  {
    if contexts == [] then []
    else
      assert LinkedPair(olds, news, contexts, |contexts| - 1);
      if contexts[|contexts|-1].0 == |olds| - 1 then news[contexts[|contexts|-1].1 + 1..] else []
  }

  /** A piece puts its stretch of new lines in the place of its stretch of the block. */
  lemma PieceReplaces(lines: seq<string>, start: nat, newLines: seq<string>, o: nat, n: nat, o': nat, n': nat)
    requires o <= o' && n <= n' <= |newLines| && start + o' <= |lines|
    ensures var p := PieceBefore(start, newLines, o, n, o', n');
            && Ordered(p, start + o, start + o')
            && Replaced(lines, p, start + o, start + o') == newLines[n..n']
  {
    if o == o' && n == n' {
      assert lines[start + o..start + o'] == newLines[n..n'] == [];
    } else {
      OneReplaced(lines, Replacement(start + o, o' - o, newLines[n..n']));
    }
  }

  lemma OneReplaced(lines: seq<string>, r: Replacement)
    requires r.start + r.oldCount <= |lines|
    ensures Ordered([r], r.start, r.start + r.oldCount)
    ensures Replaced(lines, [r], r.start, r.start + r.oldCount) == r.newLines
  {
    var end := r.start + r.oldCount;
    assert [r] + [] == [r];
    ReplacedUnfold(lines, r, [], r.start, end);
    assert lines[r.start..r.start] == [] && lines[end..end] == [];
    assert [] + r.newLines + [] == r.newLines;
  }

  lemma SliceAround(s: seq<string>, n: nat, k: nat)
    requires n <= k < |s|
    ensures s[n..] == s[n..k] + ([s[k]] + s[k+1..])
  {}

  lemma BlockLine(lines: seq<string>, block: seq<string>, start: nat, k: nat)
    requires start + |block| <= |lines| && lines[start..start + |block|] == block && k < |block|
    ensures lines[start + k..start + k + 1] == [block[k]]
  {
    var window := lines[start..start + |block|];
    assert window[k] == lines[start + k];
  }

  /** Two runs of pieces with one kept line between them. */
  lemma JoinPieces(lines: seq<string>, first: seq<Replacement>, later: seq<Replacement>, a: nat, b: nat, end: nat,
                   left: seq<string>, line: string, right: seq<string>)
    requires b < end <= |lines| && lines[b..b + 1] == [line]
    requires Ordered(first, a, b) && Replaced(lines, first, a, b) == left
    requires Ordered(later, b + 1, end) && Replaced(lines, later, b + 1, end) == right
    ensures Ordered(first + later, a, end) && Replaced(lines, first + later, a, end) == left + ([line] + right)
  {
    ReplacedFromEarlier(lines, later, b, b + 1, end);
    ReplacedConcat(lines, first, later, a, b, end);
  }

  /** The pieces from context pair `k` on turn the rest of the block into the rest of the new lines. */
  lemma {:induction false} PiecesReplace(lines: seq<string>, olds: seq<string>, news: seq<string>, contexts: seq<(nat, nat)>,
                                         start: nat, k: nat, o: nat, n: nat)
    requires Linked(olds, news, contexts) && o <= |olds| && n <= |news| && Reached(contexts, k, o, n)
    requires start + |olds| <= |lines| && lines[start..start + |olds|] == olds
    ensures var p := Pieces(start, olds, news, contexts, k, o, n);
            && Ordered(p, start + o, start + |olds|)
            && Replaced(lines, p, start + o, start + |olds|) == news[n..]
    decreases |contexts| - k
  {
    hide Replaced, Pieces, PieceBefore, Ordered;
    if k == |contexts| {
      PiecesStop(start, olds, news, contexts, k, o, n);
      PieceReplaces(lines, start, news, o, n, |olds|, |news|);
      assert news[n..] == news[n..|news|];
    } else {
      var o', n' := contexts[k].0, contexts[k].1;
      assert LinkedPair(olds, news, contexts, k);
      PiecesUnfold(start, olds, news, contexts, k, o, n);
      PiecesReplace(lines, olds, news, contexts, start, k + 1, o' + 1, n' + 1);
      BlockLine(lines, olds, start, o');
      JoinAtContext(lines, news, start, o, n, o', n', start + |olds|, Pieces(start, olds, news, contexts, k + 1, o' + 1, n' + 1));
    }
  }

  lemma JoinAtContext(lines: seq<string>, news: seq<string>, start: nat, o: nat, n: nat, o': nat, n': nat, end: nat, later: seq<Replacement>)
    requires o <= o' && n <= n' < |news| && start + o' < end <= |lines|
    requires lines[start + o'..start + o' + 1] == [news[n']]
    requires Ordered(later, start + o' + 1, end) && Replaced(lines, later, start + o' + 1, end) == news[n'+1..]
    ensures var p := PieceBefore(start, news, o, n, o', n') + later;
            Ordered(p, start + o, end) && Replaced(lines, p, start + o, end) == news[n..]
  {
    PieceReplaces(lines, start, news, o, n, o', n');
    SliceAround(news, n, n');
    JoinPieces(lines, PieceBefore(start, news, o, n, o', n'), later, start + o, start + o', end, news[n..n'], news[n'], news[n'+1..]);
  }

  lemma EndOfPiece(start: nat, newLines: seq<string>, o: nat, n: nat, o': nat, n': nat, later: seq<Replacement>, end: nat)
    requires o <= o' && n <= n' <= |newLines|
    ensures Flat(AtEnd(PieceBefore(start, newLines, o, n, o', n') + later, end))
            == (if start + o < end then [] else newLines[n..n']) + Flat(AtEnd(later, end))
  {
    var p := PieceBefore(start, newLines, o, n, o', n');
    if p == [] {
      assert p + later == later && newLines[n..n'] == [];
    } else {
      OneFiltered(p[0], later, end);
      FlatConcat(if start + o < end then [] else p, AtEnd(later, end));
      FlatOne(p[0]);
    }
  }

  lemma FlatNothing()
    ensures Flat([]) == []
  {}

  lemma FlatOne(r: Replacement)
    ensures Flat([r]) == r.newLines && Flat([]) == []
  {
    assert [r][1..] == [];
  }

  /** The lines a list of replacements puts at or behind position `end`. */
  function Behind(rs: seq<Replacement>, end: nat): seq<string> {
    Flat(AtEnd(rs, end))
  }

  lemma LastPieceBehind(start: nat, olds: seq<string>, news: seq<string>, o: nat, n: nat)
    requires o <= |olds| && n <= |news|
    ensures Behind(PieceBefore(start, news, o, n, |olds|, |news|), start + |olds|) == if o == |olds| then news[n..] else []
  {
    assert Flat(AtEnd([], start + |olds|)) == [];
    hide AtEnd, Flat;
    var p := PieceBefore(start, news, o, n, |olds|, |news|);
    EndOfPiece(start, news, o, n, |olds|, |news|, [], start + |olds|);
    assert p + [] == p;
    assert news[n..] == news[n..|news|];
  }

  lemma PieceInside(start: nat, news: seq<string>, o: nat, n: nat, o': nat, n': nat, later: seq<Replacement>, end: nat)
    requires o <= o' && n <= n' <= |news| && start + o' < end
    ensures Behind(PieceBefore(start, news, o, n, o', n') + later, end) == Behind(later, end)
  {
    EndOfPiece(start, news, o, n, o', n', later, end);
  }

  /** `tail` is what follows the last context line, if that line ends the block. */
  predicate EndsWith(olds: seq<string>, news: seq<string>, contexts: seq<(nat, nat)>, k: nat, o: nat, n: nat, tail: seq<string>)
    requires Linked(olds, news, contexts) && n <= |news|
  {
    tail == if k < |contexts| then TailBehind(olds, news, contexts) else if o == |olds| then news[n..] else []
  }

  lemma EndsWithStep(olds: seq<string>, news: seq<string>, contexts: seq<(nat, nat)>, k: nat, o: nat, n: nat, tail: seq<string>)
    requires Linked(olds, news, contexts) && n <= |news| && k < |contexts| && EndsWith(olds, news, contexts, k, o, n, tail)
    ensures contexts[k].1 + 1 <= |news| && EndsWith(olds, news, contexts, k + 1, contexts[k].0 + 1, contexts[k].1 + 1, tail)
  {
    assert LinkedPair(olds, news, contexts, k);
  }

  lemma NoTailLeft(olds: seq<string>, news: seq<string>, contexts: seq<(nat, nat)>, k: nat, o: nat, n: nat, tail: seq<string>)
    requires Linked(olds, news, contexts) && n <= |news| && k == |contexts| && EndsWith(olds, news, contexts, k, o, n, tail)
    ensures tail == if o == |olds| then news[n..] else []
  {}

  /** Only the piece behind the last context line can sit at the end of the block. */
  lemma {:induction false} PiecesBehind(start: nat, olds: seq<string>, news: seq<string>, contexts: seq<(nat, nat)>,
                                        k: nat, o: nat, n: nat, tail: seq<string>)
    requires Linked(olds, news, contexts) && o <= |olds| && n <= |news| && Reached(contexts, k, o, n)
    requires EndsWith(olds, news, contexts, k, o, n, tail)
    ensures Behind(Pieces(start, olds, news, contexts, k, o, n), start + |olds|) == tail
    decreases |contexts| - k
  {
    hide Pieces, PieceBefore, Behind, EndsWith;
    if k == |contexts| {
      PiecesStop(start, olds, news, contexts, k, o, n);
      LastPieceBehind(start, olds, news, o, n);
      NoTailLeft(olds, news, contexts, k, o, n, tail);
    } else {
      var o', n' := contexts[k].0, contexts[k].1;
      assert LinkedPair(olds, news, contexts, k);
      PiecesUnfold(start, olds, news, contexts, k, o, n);
      EndsWithStep(olds, news, contexts, k, o, n, tail);
      PiecesBehind(start, olds, news, contexts, k + 1, o' + 1, n' + 1, tail);
      PieceInside(start, news, o, n, o', n', Pieces(start, olds, news, contexts, k + 1, o' + 1, n' + 1), start + |olds|);
    }
  }

  // ---------- a whole exact patch ----------

  /** Chunk `c` is found at its exact old lines, without the trailing-blank retry. */
  predicate ExactStep(passes: Passes, lines: seq<string>, c: Chunk, lineIndex: nat)
    requires LinkedContexts(c)
  {
    var at := ContextIndex(passes, lines, c, lineIndex);
    at.Some? && (c.oldLines != [] ==>
      var found := Seek(passes, lines, c.oldLines, at.value, c.isEndOfFile);
      found.Some? && found.value + |c.oldLines| <= |lines| && lines[found.value..found.value + |c.oldLines|] == c.oldLines)
  }

  function BlockStart(passes: Passes, lines: seq<string>, c: Chunk, lineIndex: nat): nat
    requires LinkedContexts(c) && ExactStep(passes, lines, c, lineIndex)
  {
    var at := ContextIndex(passes, lines, c, lineIndex).value;
    if c.oldLines == [] then at else Seek(passes, lines, c.oldLines, at, c.isEndOfFile).value
  }

  function NextIndex(passes: Passes, lines: seq<string>, c: Chunk, lineIndex: nat): nat
    requires LinkedContexts(c) && ExactStep(passes, lines, c, lineIndex)
  {
    BlockStart(passes, lines, c, lineIndex) + |c.oldLines|
  }

  predicate Exact(passes: Passes, lines: seq<string>, chunks: seq<Chunk>, i: nat, lineIndex: nat)
    requires AllLinked(chunks) && i <= |chunks|
    decreases |chunks| - i
  {
    i == |chunks|
    || (ExactStep(passes, lines, chunks[i], lineIndex)
        && Exact(passes, lines, chunks, i + 1, NextIndex(passes, lines, chunks[i], lineIndex)))
  }

  /** The matched blocks, each to be replaced by all its new lines. */
  function Blocks(passes: Passes, lines: seq<string>, chunks: seq<Chunk>, i: nat, lineIndex: nat): seq<Replacement>
    requires AllLinked(chunks) && i <= |chunks| && Exact(passes, lines, chunks, i, lineIndex)
    decreases |chunks| - i
  {
    if i == |chunks| then []
    else
      var c := chunks[i];
      var later := Blocks(passes, lines, chunks, i + 1, NextIndex(passes, lines, c, lineIndex));
      if c.oldLines == [] then later
      else [Replacement(BlockStart(passes, lines, c, lineIndex), |c.oldLines|, c.newLines)] + later
  }

  /** The lines of the chunks without old lines, which go to the end of the file. */
  function Inserts(chunks: seq<Chunk>, i: nat): seq<string>
    requires i <= |chunks|
    decreases |chunks| - i
  {
    if i == |chunks| then []
    else (if chunks[i].oldLines == [] then chunks[i].newLines else []) + Inserts(chunks, i + 1)
  }

  predicate HasBlock(chunks: seq<Chunk>, i: nat)
    requires i <= |chunks|
  {
    exists j :: i <= j < |chunks| && chunks[j].oldLines != []
  }

  /** The end-of-file insertions that stand before the last chunk with old lines. */
  function EarlyInserts(chunks: seq<Chunk>, i: nat): seq<string>
    requires i <= |chunks|
    decreases |chunks| - i
  {
    if i == |chunks| then []
    else (if chunks[i].oldLines == [] && HasBlock(chunks, i + 1) then chunks[i].newLines else []) + EarlyInserts(chunks, i + 1)
  }

  function LateInserts(chunks: seq<Chunk>, i: nat): seq<string>
    requires i <= |chunks|
    decreases |chunks| - i
  {
    if i == |chunks| then []
    else (if chunks[i].oldLines == [] && !HasBlock(chunks, i + 1) then chunks[i].newLines else []) + LateInserts(chunks, i + 1)
  }

  lemma {:induction false} NoBlockNoEarly(chunks: seq<Chunk>, i: nat)
    requires i <= |chunks| && !HasBlock(chunks, i)
    ensures EarlyInserts(chunks, i) == []
    decreases |chunks| - i
  {
    if i < |chunks| { NoBlockNoEarly(chunks, i + 1); }
  }

  lemma {:induction false} InsertsSplit(chunks: seq<Chunk>, i: nat)
    requires i <= |chunks|
    ensures Inserts(chunks, i) == EarlyInserts(chunks, i) + LateInserts(chunks, i)
    decreases |chunks| - i
  {
    if i < |chunks| {
      InsertsSplit(chunks, i + 1);
      if !HasBlock(chunks, i + 1) { NoBlockNoEarly(chunks, i + 1); }
      InsertsUnfold(chunks, i);
      hide *;
      Regrouped(if chunks[i].oldLines == [] then chunks[i].newLines else [], EarlyInserts(chunks, i + 1), LateInserts(chunks, i + 1));
      assert Inserts(chunks, i) == EarlyInserts(chunks, i) + LateInserts(chunks, i);
    }
  }

  lemma InsertsUnfold(chunks: seq<Chunk>, i: nat)
    requires i < |chunks|
    ensures var x := if chunks[i].oldLines == [] then chunks[i].newLines else [];
            && Inserts(chunks, i) == x + Inserts(chunks, i + 1)
            && EarlyInserts(chunks, i) == (if HasBlock(chunks, i + 1) then x else []) + EarlyInserts(chunks, i + 1)
            && LateInserts(chunks, i) == (if HasBlock(chunks, i + 1) then [] else x) + LateInserts(chunks, i + 1)
  {
    hide HasBlock;
  }

  lemma Regrouped(x: seq<string>, early: seq<string>, late: seq<string>)
    ensures x + (early + late) == (x + early) + ([] + late)
    ensures early == [] ==> x + (early + late) == ([] + early) + (x + late)
  {}

  /** What the last block appends behind the end of the file, if it reaches it. */
  function TailAtEnd(passes: Passes, lines: seq<string>, chunks: seq<Chunk>, i: nat, lineIndex: nat): seq<string>
    requires AllLinked(chunks) && i <= |chunks| && Exact(passes, lines, chunks, i, lineIndex)
    decreases |chunks| - i
  {
    if i == |chunks| then []
    else
      var next := NextIndex(passes, lines, chunks[i], lineIndex);
      (if chunks[i].oldLines != [] && next == |lines| then TailOf(chunks[i]) else [])
      + TailAtEnd(passes, lines, chunks, i + 1, next)
  }

  /** The plain reading of an update. */
  function Expected(passes: Passes, lines: seq<string>, chunks: seq<Chunk>): seq<string>
    requires AllLinked(chunks) && Exact(passes, lines, chunks, 0, 0)
  {
    BlocksOrdered(passes, lines, chunks, 0, 0);
    Replaced(lines, Blocks(passes, lines, chunks, 0, 0), 0, |lines|) + Inserts(chunks, 0)
  }

  lemma StepReach(passes: Passes, lines: seq<string>, c: Chunk, lineIndex: nat)
    requires LinkedContexts(c) && ExactStep(passes, lines, c, lineIndex) && lineIndex <= |lines|
    ensures lineIndex <= BlockStart(passes, lines, c, lineIndex) <= NextIndex(passes, lines, c, lineIndex) <= |lines|
  {}

  lemma {:induction false} BlocksOrdered(passes: Passes, lines: seq<string>, chunks: seq<Chunk>, i: nat, lineIndex: nat)
    requires AllLinked(chunks) && i <= |chunks| && Exact(passes, lines, chunks, i, lineIndex) && lineIndex <= |lines|
    ensures Ordered(Blocks(passes, lines, chunks, i, lineIndex), lineIndex, |lines|)
    decreases |chunks| - i
  {
    if i < |chunks| {
      var c := chunks[i];
      StepReach(passes, lines, c, lineIndex);
      var next := NextIndex(passes, lines, c, lineIndex);
      hide ExactStep, BlockStart, NextIndex;
      BlocksOrdered(passes, lines, chunks, i + 1, next);
      OrderedLower(Blocks(passes, lines, chunks, i + 1, next), lineIndex, next, |lines|);
    }
  }

  lemma ExactStepIsStep(passes: Passes, lines: seq<string>, c: Chunk, lineIndex: nat)
    requires LinkedContexts(c) && ExactStep(passes, lines, c, lineIndex)
    ensures ChunkStep(passes, lines, c, lineIndex) == Ok(Step(StepPieces(passes, lines, c, lineIndex), NextIndex(passes, lines, c, lineIndex)))
  {}

  function StepPieces(passes: Passes, lines: seq<string>, c: Chunk, lineIndex: nat): seq<Replacement>
    requires LinkedContexts(c) && ExactStep(passes, lines, c, lineIndex)
  {
    if c.oldLines == [] then [Replacement(|lines|, 0, c.newLines)]
    else PiecesOf(BlockStart(passes, lines, c, lineIndex), c.oldLines, c.newLines, c)
  }

  lemma WholeBlock(lines: seq<string>, olds: seq<string>, news: seq<string>, contexts: seq<(nat, nat)>, start: nat)
    requires Linked(olds, news, contexts)
    requires start + |olds| <= |lines| && lines[start..start + |olds|] == olds
    ensures var p, end := Pieces(start, olds, news, contexts, 0, 0, 0), start + |olds|;
            && Ordered(p, start, end) && Replaced(lines, p, start, end) == news
            && (olds != [] ==> Behind(p, end) == TailBehind(olds, news, contexts))
  {
    PiecesReplace(lines, olds, news, contexts, start, 0, 0, 0);
    assert news[0..] == news;
    if olds != [] {
      PiecesBehind(start, olds, news, contexts, 0, 0, 0, TailBehind(olds, news, contexts));
    }
  }

  /** The pieces of one exact block spell its new lines over the block. */
  lemma BlockReplaced(passes: Passes, lines: seq<string>, c: Chunk, lineIndex: nat)
    requires LinkedContexts(c) && ExactStep(passes, lines, c, lineIndex) && lineIndex <= |lines| && c.oldLines != []
    ensures var p, start, next := StepPieces(passes, lines, c, lineIndex), BlockStart(passes, lines, c, lineIndex), NextIndex(passes, lines, c, lineIndex);
            && lineIndex <= start <= next <= |lines|
            && Ordered(p, start, next)
            && Replaced(lines, p, start, next) == c.newLines
            && Behind(p, next) == TailOf(c)
  {
    hide *;
    StepReach(passes, lines, c, lineIndex);
    BlockFound(passes, lines, c, lineIndex);
    WholeBlock(lines, c.oldLines, c.newLines, c.contexts, BlockStart(passes, lines, c, lineIndex));
  }

  lemma BlockFound(passes: Passes, lines: seq<string>, c: Chunk, lineIndex: nat)
    requires LinkedContexts(c) && ExactStep(passes, lines, c, lineIndex) && c.oldLines != []
    ensures var start := BlockStart(passes, lines, c, lineIndex);
            && start + |c.oldLines| <= |lines| && lines[start..start + |c.oldLines|] == c.oldLines
            && NextIndex(passes, lines, c, lineIndex) == start + |c.oldLines|
            && Linked(c.oldLines, c.newLines, c.contexts) && Reached(c.contexts, 0, 0, 0)
            && StepPieces(passes, lines, c, lineIndex) == Pieces(start, c.oldLines, c.newLines, c.contexts, 0, 0, 0)
            && TailOf(c) == TailBehind(c.oldLines, c.newLines, c.contexts)
  {
    hide Seek, ContextIndex, Pieces, TailBehind;
  }

  /** Splitting off what lies behind the file keeps the meaning of an ordered list. */
  lemma SplitAtEnd(lines: seq<string>, p: seq<Replacement>, start: nat, next: nat)
    requires Ordered(p, start, next) && next <= |lines|
    ensures var n := |lines|;
            && Ordered(Below(p, n), start, next)
            && Replaced(lines, Below(p, n), start, next) + Behind(p, n) == Replaced(lines, p, start, next)
            && (next < n ==> Behind(p, n) == [])
  {
    var n := |lines|;
    OrderedBelow(p, start, next, n);
    OrderedReach(p, start, next);
    if next == n {
      AtEndMembers(p, n);
      AtEndOrdered(AtEnd(p, n), n);
      ReplacedConcat(lines, Below(p, n), AtEnd(p, n), start, n, n);
      ReplacedAtEnd(lines, AtEnd(p, n), n);
    } else {
      NothingAtEnd(p, n);
    }
  }

  /** Everything that matters about the pieces of one exact block. */
  lemma BlockPieces(passes: Passes, lines: seq<string>, c: Chunk, lineIndex: nat)
    requires LinkedContexts(c) && ExactStep(passes, lines, c, lineIndex) && lineIndex <= |lines| && c.oldLines != []
    ensures var p, start, next := StepPieces(passes, lines, c, lineIndex), BlockStart(passes, lines, c, lineIndex), NextIndex(passes, lines, c, lineIndex);
            && lineIndex <= start <= next <= |lines|
            && Ordered(p, start, next) && Ordered(Below(p, |lines|), start, next)
            && Behind(p, |lines|) == (if next == |lines| then TailOf(c) else [])
            && Replaced(lines, Below(p, |lines|), start, next) + Behind(p, |lines|) == c.newLines
  {
    BlockReplaced(passes, lines, c, lineIndex);
    SplitAtEnd(lines, StepPieces(passes, lines, c, lineIndex),
               BlockStart(passes, lines, c, lineIndex), NextIndex(passes, lines, c, lineIndex));
  }

  lemma {:induction false} NothingAtEnd(rs: seq<Replacement>, n: nat)
    requires AllBelow(rs, n)
    ensures AtEnd(rs, n) == [] && Below(rs, n) == rs
  {
    hide AllBelow;
    if rs != [] {
      var front, last := rs[..|rs|-1], rs[|rs|-1];
      AllBelowFront(rs, n);
      FiltersUnfold(rs, n);
      NothingAtEnd(front, n);
      assert front + [last] == rs;
    }
  }

  lemma AllBelowFront(rs: seq<Replacement>, n: nat)
    requires AllBelow(rs, n) && rs != []
    ensures AllBelow(rs[..|rs|-1], n) && rs[|rs|-1].start < n
  {
    assert forall r :: r in rs[..|rs|-1] ==> r in rs;
  }

  /** Once a block has reached the end of the file, no later chunk can have old lines. */
  lemma {:induction false} NothingAfterEnd(passes: Passes, lines: seq<string>, chunks: seq<Chunk>, i: nat)
    requires AllLinked(chunks) && i <= |chunks| && Exact(passes, lines, chunks, i, |lines|)
    ensures !HasBlock(chunks, i)
    decreases |chunks| - i
  {
    if i < |chunks| {
      StepReach(passes, lines, chunks[i], |lines|);
      assert chunks[i].oldLines == [];
      assert NextIndex(passes, lines, chunks[i], |lines|) == |lines|;
      NothingAfterEnd(passes, lines, chunks, i + 1);
    }
  }

  lemma {:induction false} NoBlockNoTail(passes: Passes, lines: seq<string>, chunks: seq<Chunk>, i: nat, lineIndex: nat)
    requires AllLinked(chunks) && i <= |chunks| && Exact(passes, lines, chunks, i, lineIndex) && !HasBlock(chunks, i)
    ensures TailAtEnd(passes, lines, chunks, i, lineIndex) == []
    ensures Blocks(passes, lines, chunks, i, lineIndex) == []
    decreases |chunks| - i
  {
    if i < |chunks| {
      NoBlockNoTail(passes, lines, chunks, i + 1, NextIndex(passes, lines, chunks[i], lineIndex));
    }
  }

  /** The replacements cut in two: those inside the file, which together with `tail` spell what
      the whole blocks spell, and the lines appended behind it. */
  predicate CutInTwo(lines: seq<string>, u: seq<Replacement>, blocks: seq<Replacement>, from: nat,
                     early: seq<string>, tail: seq<string>, late: seq<string>) {
    var n := |lines|;
    && Ordered(Below(u, n), from, n) && Ordered(blocks, from, n)
    && Replaced(lines, Below(u, n), from, n) + tail == Replaced(lines, blocks, from, n)
    && Behind(u, n) == early + tail + late
  }

  lemma CutFromEarlier(lines: seq<string>, u: seq<Replacement>, blocks: seq<Replacement>, from: nat, at: nat,
                       early: seq<string>, tail: seq<string>, late: seq<string>)
    requires from <= at && CutInTwo(lines, u, blocks, at, early, tail, late)
    ensures CutInTwo(lines, u, blocks, from, early, tail, late)
  {
    var n := |lines|;
    ReplacedFromEarlier(lines, Below(u, n), from, at, n);
    ReplacedFromEarlier(lines, blocks, from, at, n);
    Assoc(lines[from..at], Replaced(lines, Below(u, n), at, n), tail);
  }

  lemma InsertionBehind(u: seq<Replacement>, n: nat, x: seq<string>)
    ensures Below([Replacement(n, 0, x)] + u, n) == Below(u, n)
    ensures Behind([Replacement(n, 0, x)] + u, n) == x + Behind(u, n)
  {
    var r := Replacement(n, 0, x);
    OneFiltered(r, u, n);
    FlatConcat([r], AtEnd(u, n));
    FlatOne(r);
    assert [] + Below(u, n) == Below(u, n);
  }

  lemma CutInsertion(lines: seq<string>, u: seq<Replacement>, blocks: seq<Replacement>, from: nat,
                     early: seq<string>, tail: seq<string>, late: seq<string>, x: seq<string>)
    requires CutInTwo(lines, u, blocks, from, early, tail, late)
    ensures CutInTwo(lines, [Replacement(|lines|, 0, x)] + u, blocks, from, x + early, tail, late)
    ensures early == [] && tail == [] ==> CutInTwo(lines, [Replacement(|lines|, 0, x)] + u, blocks, from, [], [], x + late)
  {
    InsertionBehind(u, |lines|, x);
    Regroup(x, early, tail, late);
    assert x + ([] + [] + late) == [] + [] + (x + late);
  }

  lemma CutBlock(lines: seq<string>, p: seq<Replacement>, u: seq<Replacement>, blocks: seq<Replacement>, start: nat, next: nat,
                 news: seq<string>, early: seq<string>, tail: seq<string>, late: seq<string>)
    requires CutInTwo(lines, u, blocks, next, early, tail, late) && start <= next <= |lines|
    requires Ordered(Below(p, |lines|), start, next)
    requires Replaced(lines, Below(p, |lines|), start, next) + Behind(p, |lines|) == news
    requires if next == |lines| then blocks == [] && early == [] && tail == [] else Behind(p, |lines|) == []
    ensures CutInTwo(lines, p + u, [Replacement(start, next - start, news)] + blocks, start, early, Behind(p, |lines|) + tail, late)
  {
    ReplacedAtEnd(lines, [], |lines|);
    FlatNothing();
    BehindConcat(p, u, |lines|);
    BlockFirst(lines, start, next, news, blocks);
    hide Replaced, Behind, Ordered, AtEnd, Below;
    var n := |lines|;
    BelowConcat(p, u, n);
    ReplacedConcat(lines, Below(p, n), Below(u, n), start, next, n);
    Interleave(Replaced(lines, Below(p, n), start, next), Behind(p, n), Replaced(lines, Below(u, n), next, n), tail, early, late, next == n);
  }

  lemma BehindConcat(a: seq<Replacement>, b: seq<Replacement>, n: nat)
    ensures Behind(a + b, n) == Behind(a, n) + Behind(b, n)
  {
    BelowConcat(a, b, n);
    FlatConcat(AtEnd(a, n), AtEnd(b, n));
  }

  lemma BlockFirst(lines: seq<string>, start: nat, next: nat, news: seq<string>, blocks: seq<Replacement>)
    requires start <= next <= |lines| && Ordered(blocks, next, |lines|)
    ensures var all := [Replacement(start, next - start, news)] + blocks;
            && Ordered(all, start, |lines|)
            && Replaced(lines, all, start, |lines|) == news + Replaced(lines, blocks, next, |lines|)
  {
    ReplacedUnfold(lines, Replacement(start, next - start, news), blocks, start, |lines|);
    assert lines[start..start] + news == news;
  }

  /** The one place where the two ways of cutting could differ. */
  lemma Interleave(own: seq<string>, behind: seq<string>, later: seq<string>, tail: seq<string>,
                   early: seq<string>, late: seq<string>, atEnd: bool)
    requires if atEnd then later + tail == [] && early == [] && tail == [] else behind == []
    ensures own + later + (behind + tail) == own + behind + (later + tail)
    ensures behind + (early + tail + late) == early + (behind + tail) + late
  {}

  /** What `CutInTwo` says of the chunks from `i` on. */
  predicate Decomposed(passes: Passes, lines: seq<string>, chunks: seq<Chunk>, i: nat, lineIndex: nat, u: seq<Replacement>)
    requires AllLinked(chunks) && i <= |chunks| && Exact(passes, lines, chunks, i, lineIndex) && lineIndex <= |lines|
  {
    CutInTwo(lines, u, Blocks(passes, lines, chunks, i, lineIndex), lineIndex,
             EarlyInserts(chunks, i), TailAtEnd(passes, lines, chunks, i, lineIndex), LateInserts(chunks, i))
  }

  lemma DecomposeInsertion(passes: Passes, lines: seq<string>, chunks: seq<Chunk>, i: nat, lineIndex: nat, later: seq<Replacement>)
    requires AllLinked(chunks) && i < |chunks| && Exact(passes, lines, chunks, i, lineIndex) && lineIndex <= |lines|
    requires chunks[i].oldLines == []
    requires NextIndex(passes, lines, chunks[i], lineIndex) <= |lines|
    requires Decomposed(passes, lines, chunks, i + 1, NextIndex(passes, lines, chunks[i], lineIndex), later)
    ensures Decomposed(passes, lines, chunks, i, lineIndex, [Replacement(|lines|, 0, chunks[i].newLines)] + later)
  {
    var next := NextIndex(passes, lines, chunks[i], lineIndex);
    StepReach(passes, lines, chunks[i], lineIndex);
    var blocks := Blocks(passes, lines, chunks, i + 1, next);
    var early, tail, late := EarlyInserts(chunks, i + 1), TailAtEnd(passes, lines, chunks, i + 1, next), LateInserts(chunks, i + 1);
    if !HasBlock(chunks, i + 1) {
      NoBlockNoEarly(chunks, i + 1);
      NoBlockNoTail(passes, lines, chunks, i + 1, next);
    }
    CutFromEarlier(lines, later, blocks, lineIndex, next, early, tail, late);
    CutInsertion(lines, later, blocks, lineIndex, early, tail, late, chunks[i].newLines);
    InsertionUnfolds(passes, lines, chunks, i, lineIndex);
  }

  lemma InsertionUnfolds(passes: Passes, lines: seq<string>, chunks: seq<Chunk>, i: nat, lineIndex: nat)
    requires AllLinked(chunks) && i < |chunks| && Exact(passes, lines, chunks, i, lineIndex) && chunks[i].oldLines == []
    ensures var next, x := NextIndex(passes, lines, chunks[i], lineIndex), chunks[i].newLines;
            && Blocks(passes, lines, chunks, i, lineIndex) == Blocks(passes, lines, chunks, i + 1, next)
            && TailAtEnd(passes, lines, chunks, i, lineIndex) == TailAtEnd(passes, lines, chunks, i + 1, next)
            && EarlyInserts(chunks, i) == (if HasBlock(chunks, i + 1) then x + EarlyInserts(chunks, i + 1) else EarlyInserts(chunks, i + 1))
            && LateInserts(chunks, i) == (if HasBlock(chunks, i + 1) then LateInserts(chunks, i + 1) else x + LateInserts(chunks, i + 1))
  {}

  lemma BlockUnfolds(passes: Passes, lines: seq<string>, chunks: seq<Chunk>, i: nat, lineIndex: nat)
    requires AllLinked(chunks) && i < |chunks| && Exact(passes, lines, chunks, i, lineIndex) && chunks[i].oldLines != []
    ensures var start, next := BlockStart(passes, lines, chunks[i], lineIndex), NextIndex(passes, lines, chunks[i], lineIndex);
            && Blocks(passes, lines, chunks, i, lineIndex)
               == [Replacement(start, next - start, chunks[i].newLines)] + Blocks(passes, lines, chunks, i + 1, next)
            && TailAtEnd(passes, lines, chunks, i, lineIndex)
               == (if next == |lines| then TailOf(chunks[i]) else []) + TailAtEnd(passes, lines, chunks, i + 1, next)
            && EarlyInserts(chunks, i) == EarlyInserts(chunks, i + 1)
            && LateInserts(chunks, i) == LateInserts(chunks, i + 1)
  {}

  lemma DecomposeBlock(passes: Passes, lines: seq<string>, chunks: seq<Chunk>, i: nat, lineIndex: nat, later: seq<Replacement>)
    requires AllLinked(chunks) && i < |chunks| && Exact(passes, lines, chunks, i, lineIndex) && lineIndex <= |lines|
    requires chunks[i].oldLines != []
    requires NextIndex(passes, lines, chunks[i], lineIndex) <= |lines|
    requires Decomposed(passes, lines, chunks, i + 1, NextIndex(passes, lines, chunks[i], lineIndex), later)
    ensures Decomposed(passes, lines, chunks, i, lineIndex, StepPieces(passes, lines, chunks[i], lineIndex) + later)
  {
    var c := chunks[i];
    var start, next := BlockStart(passes, lines, c, lineIndex), NextIndex(passes, lines, c, lineIndex);
    var p := StepPieces(passes, lines, c, lineIndex);
    var blocks := Blocks(passes, lines, chunks, i + 1, next);
    var early, tail, late := EarlyInserts(chunks, i + 1), TailAtEnd(passes, lines, chunks, i + 1, next), LateInserts(chunks, i + 1);
    BlockPieces(passes, lines, c, lineIndex);
    if next == |lines| {
      NothingAfterEnd(passes, lines, chunks, i + 1);
      NoBlockNoEarly(chunks, i + 1);
      NoBlockNoTail(passes, lines, chunks, i + 1, next);
    }
    CutBlock(lines, p, later, blocks, start, next, c.newLines, early, tail, late);
    CutFromEarlier(lines, p + later, [Replacement(start, next - start, c.newLines)] + blocks, lineIndex, start,
                   early, Behind(p, |lines|) + tail, late);
    BlockUnfolds(passes, lines, chunks, i, lineIndex);
  }

  lemma {:induction false} Decompose(passes: Passes, lines: seq<string>, chunks: seq<Chunk>, i: nat, lineIndex: nat)
    requires AllLinked(chunks) && i <= |chunks| && Exact(passes, lines, chunks, i, lineIndex) && lineIndex <= |lines|
    ensures var u := Unsorted(passes, lines, chunks, i, lineIndex);
            u.Ok? && Decomposed(passes, lines, chunks, i, lineIndex, u.value)
    decreases |chunks| - i
  {
    if i < |chunks| {
      StepReach(passes, lines, chunks[i], lineIndex);
      ExactStepIsStep(passes, lines, chunks[i], lineIndex);
      var next := NextIndex(passes, lines, chunks[i], lineIndex);
      Decompose(passes, lines, chunks, i + 1, next);
      var later := Unsorted(passes, lines, chunks, i + 1, next).value;
      if chunks[i].oldLines == [] {
        DecomposeInsertion(passes, lines, chunks, i, lineIndex, later);
      } else {
        DecomposeBlock(passes, lines, chunks, i, lineIndex, later);
      }
    }
  }

  /** For chunks found at their exact old lines, the file becomes the original with each block
      replaced by its new lines and the free insertions appended, if and only if the insertions
      standing before the last block commute with the lines that block appends at the end of the
      file.  The source sorts replacements by position only, so an earlier insertion at the end
      of the file slips in front of such appended lines. */
  lemma ExactUpdate(passes: Passes, lines: seq<string>, chunks: seq<Chunk>)
    requires AllLinked(chunks) && Exact(passes, lines, chunks, 0, 0)
    ensures var u := Unsorted(passes, lines, chunks, 0, 0);
            var early, tail := EarlyInserts(chunks, 0), TailAtEnd(passes, lines, chunks, 0, 0);
            && u.Ok? && Ordered(StableSort(u.value), 0, |lines|)
            && (Replaced(lines, StableSort(u.value), 0, |lines|) == Expected(passes, lines, chunks)
                <==> early + tail == tail + early)
  {
    var n := |lines|;
    var early, tail, late := EarlyInserts(chunks, 0), TailAtEnd(passes, lines, chunks, 0, 0), LateInserts(chunks, 0);
    Decompose(passes, lines, chunks, 0, 0);
    var u := Unsorted(passes, lines, chunks, 0, 0).value;
    SortedIsOrdered(passes, lines, chunks);
    UnsortedShape(passes, lines, chunks, 0, 0);
    AtEndMembers(u, n);
    AtEndOrdered(AtEnd(u, n), n);
    ReplacedConcat(lines, Below(u, n), AtEnd(u, n), 0, n, n);
    ReplacedAtEnd(lines, AtEnd(u, n), n);
    InsertsSplit(chunks, 0);
    var body := Replaced(lines, Below(u, n), 0, n);
    assert Replaced(lines, StableSort(u), 0, n) == body + (early + tail + late);
    assert Expected(passes, lines, chunks) == body + tail + (early + late);
    CommuteInContext(body, early, tail, late);
  }

  lemma CommuteInContext(body: seq<string>, a: seq<string>, b: seq<string>, late: seq<string>)
    ensures body + (a + b + late) == body + b + (a + late) <==> a + b == b + a
  {
    var l, r := body + (a + b + late), body + b + (a + late);
    assert r == body + (b + a + late);
    assert l[|body|..|body| + |a| + |b|] == a + b;
    assert r[|body|..|body| + |a| + |b|] == b + a;
  }

  /** In particular the plain reading holds whenever no free insertion precedes the last block. */
  lemma InsertionsLast(passes: Passes, lines: seq<string>, chunks: seq<Chunk>)
    requires AllLinked(chunks) && Exact(passes, lines, chunks, 0, 0)
    requires forall i :: 0 <= i < |chunks| && chunks[i].oldLines == [] ==> !HasBlock(chunks, i + 1)
    ensures var u := Unsorted(passes, lines, chunks, 0, 0);
            u.Ok? && Ordered(StableSort(u.value), 0, |lines|)
            && Replaced(lines, StableSort(u.value), 0, |lines|) == Expected(passes, lines, chunks)
  {
    NoEarly(chunks, 0);
    ExactUpdate(passes, lines, chunks);
    var tail := TailAtEnd(passes, lines, chunks, 0, 0);
    assert [] + tail == tail + [];
  }

  lemma {:induction false} NoEarly(chunks: seq<Chunk>, k: nat)
    requires k <= |chunks|
    requires forall i :: 0 <= i < |chunks| && chunks[i].oldLines == [] ==> !HasBlock(chunks, i + 1)
    ensures EarlyInserts(chunks, k) == []
    decreases |chunks| - k
  {
    if k < |chunks| { NoEarly(chunks, k + 1); }
  }

  const freeInsertion: Chunk := Chunk(None, [], ["X"], [], false)
  const addsBehind: Chunk := Chunk(None, ["a"], ["a", "Y"], [(0, 0)], false)

  lemma SlipIsExact(passes: Passes)
    ensures AllLinked([freeInsertion, addsBehind])
    ensures ExactStep(passes, ["a"], addsBehind, 0) && NextIndex(passes, ["a"], addsBehind, 0) == 1
    ensures Exact(passes, ["a"], [freeInsertion, addsBehind], 1, 0)
    ensures Exact(passes, ["a"], [freeInsertion, addsBehind], 0, 0)
  {
    assert LinkedPair(addsBehind.oldLines, addsBehind.newLines, addsBehind.contexts, 0);
    assert LinkedContexts(freeInsertion) && LinkedContexts(addsBehind);
    ExactMatchWins(passes, ["a"], ["a"], 0, false, 0);
    assert ExactStep(passes, ["a"], addsBehind, 0);
    assert Exact(passes, ["a"], [freeInsertion, addsBehind], 2, 1);
    assert Exact(passes, ["a"], [freeInsertion, addsBehind], 1, 0);
  }

  lemma SlipParts(passes: Passes)
    requires AllLinked([freeInsertion, addsBehind]) && Exact(passes, ["a"], [freeInsertion, addsBehind], 0, 0)
    ensures EarlyInserts([freeInsertion, addsBehind], 0) == ["X"]
    ensures TailAtEnd(passes, ["a"], [freeInsertion, addsBehind], 0, 0) == ["Y"]
  {
    var chunks := [freeInsertion, addsBehind];
    SlipIsExact(passes);
    assert HasBlock(chunks, 1) by { assert chunks[1].oldLines != []; }
    InsertionUnfolds(passes, ["a"], chunks, 0, 0);
    BlockUnfolds(passes, ["a"], chunks, 1, 0);
    assert TailOf(addsBehind) == ["Y"];
  }

  /** Such a patch: "X" goes to the end of the file, then "Y" is added behind the only line. */
  lemma EarlyInsertionSlipsIn(passes: Passes)
    ensures var lines, chunks := ["a"], [freeInsertion, addsBehind];
            && AllLinked(chunks) && Exact(passes, lines, chunks, 0, 0)
            && Unsorted(passes, lines, chunks, 0, 0).Ok?
            && var sorted := StableSort(Unsorted(passes, lines, chunks, 0, 0).value);
            && Ordered(sorted, 0, 1)
            && Replaced(lines, sorted, 0, 1) != Expected(passes, lines, chunks)
  {
    SlipIsExact(passes);
    SlipParts(passes);
    ExactUpdate(passes, ["a"], [freeInsertion, addsBehind]);
    assert (["X"] + ["Y"])[0] != (["Y"] + ["X"])[0];
  }

  // ---------- the whole operation ----------

  /** The result of an update, stated on the one canonical cut of the original into lines. */
  ghost predicate Derives(passes: Passes, original: string, chunks: seq<Chunk>, result: Result<string, UpdateError>)
    requires AllLinked(chunks)
  {
    exists lines, ending :: Canonical(lines) && Concat(lines) == original && DerivedFrom(passes, lines, ending, chunks, result)
  }

  predicate DerivedFrom(passes: Passes, lines: seq<SourceLine>, ending: string, chunks: seq<Chunk>, result: Result<string, UpdateError>)
    requires AllLinked(chunks)
  {
    && ending == (if lines != [] && lines[0].ending != "" then lines[0].ending else "\n")
    && match Unsorted(passes, Texts(lines), chunks, 0, 0)
       case Err(e) => result == Err(e)
       case Ok(u) =>
         Ordered(StableSort(u), 0, |lines|)
         && result == Ok(Concat(Filled(Spliced(lines, ending, StableSort(u), 0, |lines|), ending)))
  }

  method DeriveNewContents(passes: Passes, original: string, chunks: seq<Chunk>) returns (r: Result<string, UpdateError>)
    requires AllLinked(chunks)
    ensures Derives(passes, original, chunks, r)
  {
    var file := new SourceFile(original);
    ghost var lines, ending := file.lines, file.preferredEnding;
    var replacements := ComputeReplacements(passes, Texts(file.lines), chunks);
    if replacements.Err? {
      r := Err(replacements.error);
    } else {
      file.ApplyReplacements(replacements.value);
      var contents := file.Contents();
      r := Ok(contents);
    }
    assert DerivedFrom(passes, lines, ending, chunks, r);
  }

  /** The lines of a finished update are the spliced texts. */
  lemma FinishedTexts(lines: seq<SourceLine>, ending: string, rs: seq<Replacement>)
    requires Ordered(rs, 0, |lines|)
    ensures Texts(Filled(Spliced(lines, ending, rs, 0, |lines|), ending)) == Replaced(Texts(lines), rs, 0, |lines|)
  {
    FilledTexts(Spliced(lines, ending, rs, 0, |lines|), ending);
    SplicedTexts(lines, ending, rs, 0, |lines|);
  }

  /** The lines of the finished update, before they are written out. */
  function FinishedLines(passes: Passes, lines: seq<SourceLine>, ending: string, chunks: seq<Chunk>): seq<SourceLine>
    requires AllLinked(chunks) && Unsorted(passes, Texts(lines), chunks, 0, 0).Ok?
    requires Ordered(StableSort(Unsorted(passes, Texts(lines), chunks, 0, 0).value), 0, |lines|)
  {
    Filled(Spliced(lines, ending, StableSort(Unsorted(passes, Texts(lines), chunks, 0, 0).value), 0, |lines|), ending)
  }

  /** The insertions before the last block commute with the lines that block appends at the end of the file. */
  predicate Commutes(passes: Passes, lines: seq<string>, chunks: seq<Chunk>)
    requires AllLinked(chunks) && Exact(passes, lines, chunks, 0, 0)
  {
    var early, tail := EarlyInserts(chunks, 0), TailAtEnd(passes, lines, chunks, 0, 0);
    early + tail == tail + early
  }

  /** The whole operation on exactly matched chunks: the written contents are those of the finished lines,
      and these are the expected ones if and only if `Commutes` holds. */
  lemma DerivedLines(passes: Passes, lines: seq<SourceLine>, ending: string, chunks: seq<Chunk>, result: Result<string, UpdateError>)
    requires AllLinked(chunks) && Exact(passes, Texts(lines), chunks, 0, 0)
    requires DerivedFrom(passes, lines, ending, chunks, result)
    ensures var u := Unsorted(passes, Texts(lines), chunks, 0, 0);
            && u.Ok? && Ordered(StableSort(u.value), 0, |lines|)
            && var finished := FinishedLines(passes, lines, ending, chunks);
               && result == Ok(Concat(finished))
               && (Texts(finished) == Expected(passes, Texts(lines), chunks) <==> Commutes(passes, Texts(lines), chunks))
  {
    ExactUpdate(passes, Texts(lines), chunks);
    hide Expected, Exact, EarlyInserts, TailAtEnd, Spliced, Filled, Replaced, StableSort, Unsorted;
    FinishedTexts(lines, ending, StableSort(Unsorted(passes, Texts(lines), chunks, 0, 0).value));
  }
}
