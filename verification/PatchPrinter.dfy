/** A canonical way of writing a patch down, and the proof that the parser reads it back. */
module PatchPrinter {
  import opened Basics
  import opened PatchTypes
  import opened Trimming
  import opened PatchParser

  // ---------- the printer ----------

  function Minus(lines: seq<string>): seq<string> {
    if lines == [] then [] else ["-" + lines[0]] + Minus(lines[1..])
  }

  function Plus(lines: seq<string>): seq<string> {
    if lines == [] then [] else ["+" + lines[0]] + Plus(lines[1..])
  }

  /** Removed lines, added lines and then the context line, pair after pair. */
  function BodyLines(olds: seq<string>, news: seq<string>, contexts: seq<(nat, nat)>, k: nat, o: nat, n: nat): seq<string>
    requires Linked(olds, news, contexts) && o <= |olds| && n <= |news|
    requires k <= |contexts| && (k < |contexts| ==> o <= contexts[k].0 && n <= contexts[k].1)
    decreases |contexts| - k
  {
    if k == |contexts| then Minus(olds[o..]) + Plus(news[n..])
    else
      assert LinkedPair(olds, news, contexts, k);
      var (o', n') := contexts[k];
      Minus(olds[o..o']) + Plus(news[n..n']) + [" " + olds[o']] + BodyLines(olds, news, contexts, k + 1, o' + 1, n' + 1)
  }

  function MarkerLine(context: Option<string>): string {
    if context.None? then "@@" else changeContext + context.value
  }

  function PrintChunk(c: Chunk): seq<string>
    requires LinkedContexts(c)
  {
    [MarkerLine(c.changeContext)] + BodyLines(c.oldLines, c.newLines, c.contexts, 0, 0, 0)
    + (if c.isEndOfFile then [endOfFile] else [])
  }

  function PrintChunks(chunks: seq<Chunk>): seq<string>
    requires AllPrintable(chunks)
  {
    if chunks == [] then []
    else
      assert chunks[0] in chunks;
      PrintChunk(chunks[0]) + PrintChunks(chunks[1..])
  }

  /** The lines of a text that ends with a newline. */
  function ContentLines(contents: string): seq<string> {
    var lines := Split(contents);
    lines[..|lines|-1]
  }

  function PrintHunk(h: Hunk): seq<string>
    requires Printable(h)
  {
    match h
    case AddFile(path, contents) => [addFile + path] + Plus(ContentLines(contents))
    case DeleteFile(path) => [deleteFile + path]
    case UpdateFile(path, chunks) => [updateFile + path] + PrintChunks(chunks)
  }

  function PrintHunks(hunks: seq<Hunk>): seq<string>
    requires forall h :: h in hunks ==> Printable(h)
  {
    if hunks == [] then [] else PrintHunk(hunks[0]) + PrintHunks(hunks[1..])
  }

  function Print(hunks: seq<Hunk>): string
    requires forall h :: h in hunks ==> Printable(h)
  {
    JoinLines([beginPatch] + PrintHunks(hunks) + [endPatch])
  }

  // ---------- what can be written down ----------

  predicate PrintablePath(path: string) {
    path != "" && TrimSpace(path) == path && NoNewline(path)
  }

  predicate AllClean(lines: seq<string>) {
    forall l :: l in lines ==> CleanLine(l)
  }

  predicate PrintableContext(context: string) {
    context != "" && NoNewline(context) && context[|context|-1] !in {' ', '\t', '\r'}
  }

  predicate PrintableChunk(c: Chunk) {
    && LinkedContexts(c) && !ChunkEmpty(c)
    && AllClean(c.oldLines) && AllClean(c.newLines)
    && (c.changeContext.Some? ==> PrintableContext(c.changeContext.value))
  }

  predicate AllPrintable(chunks: seq<Chunk>) {
    forall c :: c in chunks ==> PrintableChunk(c)
  }

  predicate Printable(h: Hunk) {
    && PrintablePath(h.path)
    && match h
       case AddFile(_, contents) => contents != "" && contents[|contents|-1] == '\n' && NoReturnPair(contents)
       case DeleteFile(_) => true
       case UpdateFile(_, chunks) => chunks != [] && AllPrintable(chunks)
  }

  lemma ShiftOne<T>(pre: seq<T>, lines: seq<T>, post: seq<T>)
    requires lines != []
    ensures pre + lines + post == (pre + [lines[0]]) + lines[1..] + post
    ensures |pre| < |pre + lines + post| && (pre + lines + post)[|pre|] == lines[0]
  {}

  lemma MoveOne<T>(a: seq<T>, lines: seq<T>)
    requires lines != []
    ensures a + [lines[0]] + lines[1..] == a + lines
  {}

  lemma AllCleanRest(lines: seq<string>)
    requires AllClean(lines) && lines != []
    ensures CleanLine(lines[0]) && AllClean(lines[1..])
  {
    assert lines[0] in lines && forall l :: l in lines[1..] ==> l in lines;
  }

  // ---------- reading the body of an update ----------

  function StepAll(chunks: seq<Chunk>, lines: seq<string>): Result<seq<Chunk>, Problem>
    decreases |lines|
  {
    if lines == [] then Ok(chunks)
    else match UpdateStep(chunks, lines[0])
      case Err(problem) => Err(problem)
      case Ok(next) => StepAll(next, lines[1..])
  }

  /** Reading `lines` takes the chunks from `before` to `after`. */
  predicate Steps(before: seq<Chunk>, lines: seq<string>, after: seq<Chunk>) {
    StepAll(before, lines) == Ok(after)
  }

  lemma {:induction false} StepsConcat(a: seq<Chunk>, x: seq<string>, b: seq<Chunk>, y: seq<string>, c: seq<Chunk>)
    requires Steps(a, x, b) && Steps(b, y, c)
    ensures Steps(a, x + y, c)
    decreases |x|
  {
    if x == [] {
      assert x + y == y;
    } else {
      assert (x + y)[0] == x[0] && (x + y)[1..] == x[1..] + y;
      StepsConcat(UpdateStep(a, x[0]).value, x[1..], b, y, c);
    }
  }

  lemma OneStep(a: seq<Chunk>, line: string, b: seq<Chunk>)
    requires UpdateStep(a, line) == Ok(b)
    ensures Steps(a, [line], b)
  {
    assert StepAll(b, [line][1..]) == Ok(b);
  }

  /** A body line that starts with ' ', '+' or '-' goes into the last chunk. */
  lemma BodyStep(done: seq<Chunk>, c: Chunk, line: string)
    requires !c.isEndOfFile && line != "" && line[0] in {' ', '+', '-'} && line[|line|-1] != '\r'
    ensures UpdateStep(done + [c], line)
            == Ok(done + [if line[0] == ' ' then PushContext(c, line[1..])
                          else if line[0] == '+' then c.(newLines := c.newLines + [line[1..]])
                          else c.(oldLines := c.oldLines + [line[1..]])])
  {
    var chunks := done + [c];
    var trimmedEnd := TrimEnd(line, {' ', '\t'});
    assert trimmedEnd != "" ==> trimmedEnd[0] == line[0];
    assert !(moveTo <= trimmedEnd) && !IsContextMarker(trimmedEnd) && trimmedEnd != endOfFile;
    var next := TakeLine(c, line).value;
    assert SetLast(chunks, next) == done + [next];
  }

  lemma MinusOne(done: seq<Chunk>, c: Chunk, line: string)
    requires !c.isEndOfFile && CleanLine(line)
    ensures Steps(done + [c], ["-" + line], done + [c.(oldLines := c.oldLines + [line])])
  {
    assert ("-" + line)[1..] == line;
    BodyStep(done, c, "-" + line);
    OneStep(done + [c], "-" + line, done + [c.(oldLines := c.oldLines + [line])]);
  }

  lemma {:induction false} MinusSteps(done: seq<Chunk>, c: Chunk, lines: seq<string>)
    requires !c.isEndOfFile && AllClean(lines)
    ensures Steps(done + [c], Minus(lines), done + [c.(oldLines := c.oldLines + lines)])
    decreases |lines|
  {
    if lines == [] {
      assert c.oldLines + lines == c.oldLines;
    } else {
      var line := lines[0];
      AllCleanRest(lines);
      assert Minus(lines) == ["-" + line] + Minus(lines[1..]);
      hide *;
      var next, all := c.(oldLines := c.oldLines + [line]), c.(oldLines := c.oldLines + lines);
      MinusOne(done, c, line);
      MinusSteps(done, next, lines[1..]);
      MoveOne(c.oldLines, lines);
      StepsConcat(done + [c], ["-" + line], done + [next], Minus(lines[1..]), done + [all]);
      assert Steps(done + [c], Minus(lines), done + [all]);
    }
  }

  lemma PlusOne(done: seq<Chunk>, c: Chunk, line: string)
    requires !c.isEndOfFile && CleanLine(line)
    ensures Steps(done + [c], ["+" + line], done + [c.(newLines := c.newLines + [line])])
  {
    assert ("+" + line)[1..] == line;
    BodyStep(done, c, "+" + line);
    OneStep(done + [c], "+" + line, done + [c.(newLines := c.newLines + [line])]);
  }

  lemma {:induction false} PlusSteps(done: seq<Chunk>, c: Chunk, lines: seq<string>)
    requires !c.isEndOfFile && AllClean(lines)
    ensures Steps(done + [c], Plus(lines), done + [c.(newLines := c.newLines + lines)])
    decreases |lines|
  {
    if lines == [] {
      assert c.newLines + lines == c.newLines;
    } else {
      var line := lines[0];
      AllCleanRest(lines);
      assert Plus(lines) == ["+" + line] + Plus(lines[1..]);
      hide *;
      var next, all := c.(newLines := c.newLines + [line]), c.(newLines := c.newLines + lines);
      PlusOne(done, c, line);
      PlusSteps(done, next, lines[1..]);
      MoveOne(c.newLines, lines);
      StepsConcat(done + [c], ["+" + line], done + [next], Plus(lines[1..]), done + [all]);
      assert Steps(done + [c], Plus(lines), done + [all]);
    }
  }

  /** The part of a chunk read up to old line `o`, new line `n` and context pair `k`. */
  function Partial(context: Option<string>, olds: seq<string>, news: seq<string>, contexts: seq<(nat, nat)>, k: nat, o: nat, n: nat): Chunk
    requires k <= |contexts| && o <= |olds| && n <= |news|
  {
    Chunk(context, olds[..o], news[..n], contexts[..k], false)
  }

  /** A run of removed and added lines. */
  lemma RunSteps(done: seq<Chunk>, context: Option<string>, olds: seq<string>, news: seq<string>, contexts: seq<(nat, nat)>,
                 k: nat, o: nat, n: nat, o': nat, n': nat)
    requires k <= |contexts| && o <= o' <= |olds| && n <= n' <= |news| && AllClean(olds) && AllClean(news)
    ensures Steps(done + [Partial(context, olds, news, contexts, k, o, n)], Minus(olds[o..o']) + Plus(news[n..n']),
                  done + [Partial(context, olds, news, contexts, k, o', n')])
  {
    hide Steps;
    var a := Partial(context, olds, news, contexts, k, o, n);
    var b := Partial(context, olds, news, contexts, k, o', n);
    MinusSteps(done, a, olds[o..o']);
    assert olds[..o] + olds[o..o'] == olds[..o'];
    PlusSteps(done, b, news[n..n']);
    assert news[..n] + news[n..n'] == news[..n'];
    StepsConcat(done + [a], Minus(olds[o..o']), done + [b], Plus(news[n..n']),
                done + [Partial(context, olds, news, contexts, k, o', n')]);
  }

  lemma ContextStep(done: seq<Chunk>, context: Option<string>, olds: seq<string>, news: seq<string>, contexts: seq<(nat, nat)>, k: nat)
    requires Linked(olds, news, contexts) && k < |contexts| && AllClean(olds)
    ensures LinkedPair(olds, news, contexts, k)
    ensures var o, n := contexts[k].0, contexts[k].1;
            Steps(done + [Partial(context, olds, news, contexts, k, o, n)], [" " + olds[o]],
                  done + [Partial(context, olds, news, contexts, k + 1, o + 1, n + 1)])
  {
    assert LinkedPair(olds, news, contexts, k);
    var o, n := contexts[k].0, contexts[k].1;
    var line := olds[o];
    assert line in olds && (" " + line)[1..] == line;
    assert olds[..o] + [line] == olds[..o + 1] && news[..n] + [line] == news[..n + 1] && contexts[..k] + [contexts[k]] == contexts[..k + 1];
    BodyStep(done, Partial(context, olds, news, contexts, k, o, n), " " + line);
    OneStep(done + [Partial(context, olds, news, contexts, k, o, n)], " " + line,
            done + [Partial(context, olds, news, contexts, k + 1, o + 1, n + 1)]);
  }

  lemma {:induction false} BodySteps(done: seq<Chunk>, context: Option<string>, olds: seq<string>, news: seq<string>, contexts: seq<(nat, nat)>,
                                     k: nat, o: nat, n: nat)
    requires Linked(olds, news, contexts) && o <= |olds| && n <= |news| && AllClean(olds) && AllClean(news)
    requires k <= |contexts| && (k < |contexts| ==> o <= contexts[k].0 && n <= contexts[k].1)
    ensures Steps(done + [Partial(context, olds, news, contexts, k, o, n)], BodyLines(olds, news, contexts, k, o, n),
                  done + [Chunk(context, olds, news, contexts, false)])
    decreases |contexts| - k
  {
    hide Steps;
    var here := Partial(context, olds, news, contexts, k, o, n);
    var whole := Chunk(context, olds, news, contexts, false);
    if k == |contexts| {
      LastRunSteps(done, context, olds, news, contexts, o, n);
    } else {
      assert LinkedPair(olds, news, contexts, k);
      PairSteps(done, context, olds, news, contexts, k, o, n);
      var (o', n') := contexts[k];
      var after := Partial(context, olds, news, contexts, k + 1, o' + 1, n' + 1);
      BodySteps(done, context, olds, news, contexts, k + 1, o' + 1, n' + 1);
      StepsConcat(done + [here], Minus(olds[o..o']) + Plus(news[n..n']) + [" " + olds[o']], done + [after],
                  BodyLines(olds, news, contexts, k + 1, o' + 1, n' + 1), done + [whole]);
    }
  }

  lemma LastRunSteps(done: seq<Chunk>, context: Option<string>, olds: seq<string>, news: seq<string>, contexts: seq<(nat, nat)>, o: nat, n: nat)
    requires o <= |olds| && n <= |news| && AllClean(olds) && AllClean(news)
    ensures Steps(done + [Partial(context, olds, news, contexts, |contexts|, o, n)], Minus(olds[o..]) + Plus(news[n..]),
                  done + [Chunk(context, olds, news, contexts, false)])
  {
    RunSteps(done, context, olds, news, contexts, |contexts|, o, n, |olds|, |news|);
    assert olds[o..] == olds[o..|olds|] && news[n..] == news[n..|news|];
    assert Partial(context, olds, news, contexts, |contexts|, |olds|, |news|) == Chunk(context, olds, news, contexts, false);
  }

  /** A run and the context line that ends it. */
  lemma PairSteps(done: seq<Chunk>, context: Option<string>, olds: seq<string>, news: seq<string>, contexts: seq<(nat, nat)>,
                  k: nat, o: nat, n: nat)
    requires Linked(olds, news, contexts) && k < |contexts| && AllClean(olds) && AllClean(news)
    requires o <= contexts[k].0 && n <= contexts[k].1
    ensures LinkedPair(olds, news, contexts, k)
    ensures var (o', n') := contexts[k];
            Steps(done + [Partial(context, olds, news, contexts, k, o, n)],
                  Minus(olds[o..o']) + Plus(news[n..n']) + [" " + olds[o']],
                  done + [Partial(context, olds, news, contexts, k + 1, o' + 1, n' + 1)])
  {
    hide Steps;
    assert LinkedPair(olds, news, contexts, k);
    var (o', n') := contexts[k];
    RunSteps(done, context, olds, news, contexts, k, o, n, o', n');
    ContextStep(done, context, olds, news, contexts, k);
    StepsConcat(done + [Partial(context, olds, news, contexts, k, o, n)], Minus(olds[o..o']) + Plus(news[n..n']),
                done + [Partial(context, olds, news, contexts, k, o', n')], [" " + olds[o']],
                done + [Partial(context, olds, news, contexts, k + 1, o' + 1, n' + 1)]);
  }

  lemma MarkerStep(done: seq<Chunk>, context: Option<string>)
    requires !LastEmpty(done) && (context.Some? ==> PrintableContext(context.value))
    ensures Steps(done, [MarkerLine(context)], done + [emptyChunk.(changeContext := context)])
  {
    var line := MarkerLine(context);
    assert line[0] == '@' && line[|line|-1] !in {' ', '\t', '\r'};
    assert TrimSuffixReturn(line) == line && TrimEnd(line, {' ', '\t'}) == line;
    assert line[0] != moveTo[0];
    if context.Some? {
      assert line[|changeContext|..] == context.value;
      assert |line| > 2;
    }
    OneStep(done, line, done + [emptyChunk.(changeContext := context)]);
  }

  lemma EndStep(done: seq<Chunk>, c: Chunk)
    requires !c.isEndOfFile && !ChunkEmpty(c)
    ensures Steps(done + [c], [endOfFile], done + [c.(isEndOfFile := true)])
  {
    var chunks := done + [c];
    assert endOfFile[|endOfFile|-1] == 'e';
    assert TrimSuffixReturn(endOfFile) == endOfFile && TrimEnd(endOfFile, {' ', '\t'}) == endOfFile;
    assert endOfFile[4] != moveTo[4] && endOfFile[0] != '@';
    assert SetLast(chunks, c.(isEndOfFile := true)) == done + [c.(isEndOfFile := true)];
    OneStep(chunks, endOfFile, done + [c.(isEndOfFile := true)]);
  }

  lemma ChunkSteps(done: seq<Chunk>, c: Chunk)
    requires PrintableChunk(c) && !LastEmpty(done)
    ensures Steps(done, PrintChunk(c), done + [c])
  {
    hide Steps;
    var open := emptyChunk.(changeContext := c.changeContext);
    var whole := c.(isEndOfFile := false);
    var marker, body := [MarkerLine(c.changeContext)], BodyLines(c.oldLines, c.newLines, c.contexts, 0, 0, 0);
    MarkerStep(done, c.changeContext);
    assert Partial(c.changeContext, c.oldLines, c.newLines, c.contexts, 0, 0, 0) == open;
    BodySteps(done, c.changeContext, c.oldLines, c.newLines, c.contexts, 0, 0, 0);
    StepsConcat(done, marker, done + [open], body, done + [whole]);
    if c.isEndOfFile {
      EndStep(done, whole);
      StepsConcat(done, marker + body, done + [whole], [endOfFile], done + [c]);
    } else {
      assert marker + body + [] == marker + body;
    }
  }

  lemma {:induction false} ChunksSteps(done: seq<Chunk>, chunks: seq<Chunk>)
    requires AllPrintable(chunks) && !LastEmpty(done)
    ensures Steps(done, PrintChunks(chunks), done + chunks)
    decreases |chunks|
  {
    if chunks == [] {
      assert done + chunks == done;
    } else {
      var c, rest := chunks[0], chunks[1..];
      assert c in chunks && forall r :: r in rest ==> r in chunks;
      assert PrintableChunk(c) && AllPrintable(rest) && !LastEmpty(done + [c]);
      assert PrintChunks(chunks) == PrintChunk(c) + PrintChunks(rest);
      hide *;
      ChunkSteps(done, c);
      ChunksSteps(done + [c], rest);
      MoveOne(done, chunks);
      StepsConcat(done, PrintChunk(c), done + [c], PrintChunks(rest), done + chunks);
      assert Steps(done, PrintChunks(chunks), done + chunks);
    }
  }

  // ---------- printed lines are never taken for a boundary ----------

  /** A line of a hunk's body: it cannot open another hunk and survives joining. */
  predicate Inner(line: string) {
    CleanLine(line) && !IsUpdateBoundary(line)
  }

  predicate AllInner(lines: seq<string>) {
    forall l :: l in lines ==> Inner(l)
  }

  lemma InnerByFirst(line: string)
    requires line != "" && line[0] != '*' && CleanLine(line)
    ensures Inner(line)
  {
    var t := TrimEnd(line, {' ', '\t', '\r'});
    assert t != "" ==> t[0] == line[0];
  }

  lemma InnerEnd()
    ensures Inner(endOfFile)
  {
    assert endOfFile[|endOfFile|-1] == 'e';
    assert TrimEnd(endOfFile, {' ', '\t', '\r'}) == endOfFile;
    assert endOfFile[4] == 'E' && addFile[4] == 'A' && deleteFile[4] == 'D' && updateFile[4] == 'U';
  }

  lemma CleanAfter(first: char, line: string)
    requires CleanLine(line) && first != '\n' && first != '\r'
    ensures CleanLine([first] + line)
  {}

  lemma {:induction false} MinusInner(lines: seq<string>)
    requires AllClean(lines)
    ensures AllInner(Minus(lines))
  {
    if lines != [] {
      assert lines[0] in lines;
      CleanAfter('-', lines[0]);
      InnerByFirst("-" + lines[0]);
      MinusInner(lines[1..]);
    }
  }

  lemma {:induction false} PlusInner(lines: seq<string>)
    requires AllClean(lines)
    ensures AllInner(Plus(lines))
  {
    if lines != [] {
      assert lines[0] in lines;
      CleanAfter('+', lines[0]);
      InnerByFirst("+" + lines[0]);
      PlusInner(lines[1..]);
    }
  }

  lemma {:induction false} BodyInner(olds: seq<string>, news: seq<string>, contexts: seq<(nat, nat)>, k: nat, o: nat, n: nat)
    requires Linked(olds, news, contexts) && o <= |olds| && n <= |news| && AllClean(olds) && AllClean(news)
    requires k <= |contexts| && (k < |contexts| ==> o <= contexts[k].0 && n <= contexts[k].1)
    ensures AllInner(BodyLines(olds, news, contexts, k, o, n))
    decreases |contexts| - k
  {
    if k == |contexts| {
      MinusInner(olds[o..]);
      PlusInner(news[n..]);
    } else {
      assert LinkedPair(olds, news, contexts, k);
      var (o', n') := contexts[k];
      MinusInner(olds[o..o']);
      PlusInner(news[n..n']);
      assert olds[o'] in olds;
      CleanAfter(' ', olds[o']);
      InnerByFirst(" " + olds[o']);
      BodyInner(olds, news, contexts, k + 1, o' + 1, n' + 1);
    }
  }

  lemma MarkerInner(context: Option<string>)
    requires context.Some? ==> PrintableContext(context.value)
    ensures Inner(MarkerLine(context))
  {
    InnerByFirst(MarkerLine(context));
  }

  lemma {:induction false} ChunksInner(chunks: seq<Chunk>)
    requires AllPrintable(chunks)
    ensures AllInner(PrintChunks(chunks))
  {
    if chunks != [] {
      var c := chunks[0];
      assert c in chunks;
      MarkerInner(c.changeContext);
      BodyInner(c.oldLines, c.newLines, c.contexts, 0, 0, 0);
      InnerEnd();
      assert AllInner(PrintChunk(c));
      ChunksInner(chunks[1..]);
    }
  }

  // ---------- hunks ----------

  /** A line that opens a hunk, for both ways the parser asks. */
  predicate Opens(line: string) {
    CleanLine(line) && IsHunkHeader(line) && IsUpdateBoundary(line)
  }

  lemma HeaderLine(marker: string, path: string)
    requires PrintablePath(path) && marker in {addFile, deleteFile, updateFile}
    ensures Opens(marker + path)
    ensures TrimSpace(marker + path) == marker + path && (marker + path)[|marker|..] == path
  {
    var line := marker + path;
    TrimmedIsTight(path);
    assert line[|line|-1] == path[|path|-1];
    assert marker[0] == '*';
    TightStays(line);
    assert TrimEnd(line, {' ', '\t', '\r'}) == line;
    assert marker <= line;
    assert NoNewline(marker);
  }

  /** The parser reads a hunk and stops in front of `post`. */
  predicate ReadsBack(pre: seq<string>, h: Hunk, printed: seq<string>, post: seq<string>)
    requires printed != []
  {
    HunkAt(pre + printed + post, |pre|) == Ok((h, |pre| + |printed|))
  }

  lemma UpdateUnfold(body: seq<string>, i: nat, before: seq<Chunk>, next: seq<Chunk>)
    requires i < |body| && !IsUpdateBoundary(body[i]) && UpdateStep(before, body[i]) == Ok(next)
    ensures UpdateFrom(body, i, before) == UpdateFrom(body, i + 1, next) && NextBoundary(body, i) == NextBoundary(body, i + 1)
  {
    hide UpdateStep, IsUpdateBoundary;
  }

  lemma StepsUnfold(before: seq<Chunk>, lines: seq<string>, after: seq<Chunk>)
    requires lines != [] && Steps(before, lines, after)
    ensures UpdateStep(before, lines[0]).Ok? && Steps(UpdateStep(before, lines[0]).value, lines[1..], after)
  {
    hide UpdateStep;
  }

  lemma {:induction false} UpdateReads(pre: seq<string>, lines: seq<string>, post: seq<string>, before: seq<Chunk>, after: seq<Chunk>)
    requires Steps(before, lines, after) && AllInner(lines) && (post != [] ==> Opens(post[0]))
    ensures UpdateFrom(pre + lines + post, |pre|, before) == Ok(after)
    ensures NextBoundary(pre + lines + post, |pre|) == |pre| + |lines|
    decreases |lines|
  {
    var body := pre + lines + post;
    if lines == [] {
      assert |pre| < |body| ==> body[|pre|] == post[0];
    } else {
      assert lines[0] in lines && Inner(lines[0]) && AllInner(lines[1..]);
      hide *;
      StepsUnfold(before, lines, after);
      var next := UpdateStep(before, lines[0]).value;
      ShiftOne(pre, lines, post);
      UpdateReads(pre + [lines[0]], lines[1..], post, next, after);
      NotBoundary(lines[0]);
      UpdateUnfold(body, |pre|, before, next);
      assert UpdateFrom(body, |pre|, before) == Ok(after) && NextBoundary(body, |pre|) == |pre| + |lines|;
    }
  }

  lemma NotBoundary(line: string)
    requires Inner(line)
    ensures !IsUpdateBoundary(line)
  {
    hide IsUpdateBoundary;
  }

  lemma Behind(pre: seq<string>, header: string, lines: seq<string>, post: seq<string>)
    ensures var body := pre + ([header] + lines) + post;
            && |pre| < |body| && body[|pre|] == header
            && body == (pre + [header]) + lines + post
            && (lines == [] && post != [] ==> |pre| + 1 < |body| && body[|pre| + 1] == post[0])
            && (lines == [] && post == [] ==> |body| == |pre| + 1)
  {}

  lemma MarkersDiffer(path: string)
    ensures !(addFile <= deleteFile + path) && !(addFile <= updateFile + path) && !(deleteFile <= updateFile + path)
  {
    assert (deleteFile + path)[4] == 'D' && (updateFile + path)[4] == 'U';
    assert addFile[4] == 'A' && deleteFile[4] == 'D';
  }

  lemma AddByHeader(body: seq<string>, i: nat, path: string, contents: string, next: nat)
    requires PrintablePath(path) && i < |body| && body[i] == addFile + path && Added(body, i + 1) == Ok((contents, next))
    ensures HunkAt(body, i) == Ok((AddFile(path, contents), next))
  {
    HeaderLine(addFile, path);
  }

  lemma UpdateByHeader(body: seq<string>, i: nat, path: string, chunks: seq<Chunk>, next: nat)
    requires PrintablePath(path) && i < |body| && body[i] == updateFile + path && Updated(body, i + 1) == Ok((chunks, next))
    ensures HunkAt(body, i) == Ok((UpdateFile(path, chunks), next))
  {
    HeaderLine(updateFile, path);
    MarkersDiffer(path);
  }

  lemma DeleteByHeader(body: seq<string>, i: nat, path: string)
    requires PrintablePath(path) && i < |body| && body[i] == deleteFile + path && (i + 1 < |body| ==> IsHunkHeader(body[i + 1]))
    ensures HunkAt(body, i) == Ok((DeleteFile(path), i + 1))
  {
    HeaderLine(deleteFile, path);
    MarkersDiffer(path);
  }

  lemma PrintedUpdate(body: seq<string>, pre: seq<string>, chunks: seq<Chunk>, post: seq<string>)
    requires chunks != [] && AllPrintable(chunks)
    requires (post != [] ==> Opens(post[0])) && body == pre + PrintChunks(chunks) + post
    ensures Updated(body, |pre|) == Ok((chunks, |pre| + |PrintChunks(chunks)|))
  {
    hide *;
    NothingOpen();
    ChunksSteps([], chunks);
    assert [] + chunks == chunks;
    ChunksInner(chunks);
    var lines := PrintChunks(chunks);
    UpdateReads(pre, lines, post, [], chunks);
    AcceptUpdate(body, |pre|, chunks, |pre| + |lines|);
  }

  lemma NothingOpen()
    ensures !LastEmpty([])
  {}

  lemma AcceptUpdate(body: seq<string>, start: nat, chunks: seq<Chunk>, next: nat)
    requires chunks != [] && AllPrintable(chunks) && UpdateFrom(body, start, []) == Ok(chunks) && NextBoundary(body, start) == next
    ensures Updated(body, start) == Ok((chunks, next))
  {
    assert chunks[|chunks|-1] in chunks;
  }

  lemma UpdateReadsBack(pre: seq<string>, h: Hunk, post: seq<string>)
    requires Printable(h) && h.UpdateFile? && (post != [] ==> Opens(post[0]))
    ensures ReadsBack(pre, h, PrintHunk(h), post)
  {
    hide Updated, PrintChunks, HunkAt, Opens;
    var header, lines := updateFile + h.path, PrintChunks(h.chunks);
    var body := pre + ([header] + lines) + post;
    Behind(pre, header, lines, post);
    PrintedUpdate(body, pre + [header], h.chunks, post);
    UpdateByHeader(body, |pre|, h.path, h.chunks, |pre| + 1 + |lines|);
  }

  /** Lines joined with a newline behind each. */
  function Unlines(lines: seq<string>): string {
    if lines == [] then "" else lines[0] + "\n" + Unlines(lines[1..])
  }

  lemma {:induction false} SplitEnded(s: string)
    requires s != "" && s[|s|-1] == '\n' && NoReturnPair(s)
    ensures |Split(s)| > 1 && ContentLines(s) != [] && Unlines(ContentLines(s)) == s && AllClean(ContentLines(s))
    decreases |s|
  {
    var all := Split(s);
    if |s| == 1 {
      assert s == "\n" && Split(s[1..]) == [""] && all == ["", ""];
      assert ContentLines(s) == [""];
    } else {
      var rest := s[1..];
      assert forall i :: 0 <= i < |rest| ==> rest[i] == s[i + 1];
      SplitEnded(rest);
      var later := Split(rest);
      var lines := ContentLines(rest);
      assert s == [s[0]] + rest && lines != [];
      if s[0] == '\n' {
        assert ContentLines(s) == [""] + lines;
      } else {
        assert ContentLines(s) == [[s[0]] + lines[0]] + lines[1..];
        assert lines[0] in lines;
        FirstOfSplit(rest);
        LongerFirst(s[0], rest, lines);
      }
    }
  }

  lemma LongerFirst(c: char, rest: string, lines: seq<string>)
    requires lines != [] && Unlines(lines) == rest && AllClean(lines) && c != '\n' && (c == '\r' ==> lines[0] != "")
    ensures Unlines([[c] + lines[0]] + lines[1..]) == [c] + rest
    ensures AllClean([[c] + lines[0]] + lines[1..])
  {
    var first := [c] + lines[0];
    assert lines[0] in lines && first[1..] == lines[0];
    assert CleanLine(first);
    assert ([first] + lines[1..])[1..] == lines[1..];
    assert [c] + (lines[0] + "\n" + Unlines(lines[1..])) == first + "\n" + Unlines(lines[1..]);
  }

  /** The first line of a text starts with the text's first character, unless it is empty. */
  lemma FirstOfSplit(s: string)
    requires s != ""
    ensures if s[0] == '\n' then Split(s)[0] == "" else Split(s)[0] != "" && Split(s)[0][0] == s[0]
  {}

  lemma {:induction false} PlusLength(lines: seq<string>)
    ensures |Plus(lines)| == |lines|
  {
    if lines != [] { PlusLength(lines[1..]); }
  }

  lemma AddedUnfold(body: seq<string>, i: nat, text: string, contents: string)
    requires i < |body| && body[i] == "+" + text
    ensures AddedFrom(body, i, contents) == AddedFrom(body, i + 1, contents + text + "\n")
  {
    NotHeader(body[i]);
    assert body[i][1..] == text;
  }

  lemma AddedStop(body: seq<string>, i: nat, contents: string)
    requires i < |body| ==> Opens(body[i])
    ensures AddedFrom(body, i, contents) == Ok((contents, i))
  {}

  lemma {:induction false} AddReads(pre: seq<string>, lines: seq<string>, post: seq<string>, contents: string)
    requires AllClean(lines) && (post != [] ==> Opens(post[0]))
    ensures AddedFrom(pre + Plus(lines) + post, |pre|, contents) == Ok((contents + Unlines(lines), |pre| + |Plus(lines)|))
    decreases |lines|
  {
    var body := pre + Plus(lines) + post;
    if lines == [] {
      assert |pre| < |body| ==> body[|pre|] == post[0];
      assert contents + Unlines(lines) == contents;
      AddedStop(body, |pre|, contents);
    } else {
      var line := "+" + lines[0];
      AllCleanRest(lines);
      assert Plus(lines)[0] == line && Plus(lines)[1..] == Plus(lines[1..]);
      assert Unlines(lines) == lines[0] + "\n" + Unlines(lines[1..]);
      hide *;
      ShiftOne(pre, Plus(lines), post);
      AddedUnfold(body, |pre|, lines[0], contents);
      AddReads(pre + [line], lines[1..], post, contents + lines[0] + "\n");
      assert contents + lines[0] + "\n" + Unlines(lines[1..]) == contents + Unlines(lines);
      assert AddedFrom(body, |pre|, contents) == Ok((contents + Unlines(lines), |pre| + |Plus(lines)|));
    }
  }

  lemma NotHeader(line: string)
    requires line != "" && line[0] == '+'
    ensures !IsHunkHeader(line)
  {
    TrimRightPrefix(line);
  }

  lemma {:induction false} TrimRightPrefix(s: string)
    ensures TrimRight(s) <= s
  {
    if s != [] && IsSpace(s[|s|-1]) { TrimRightPrefix(s[..|s|-1]); }
  }

  lemma PrintedAdd(body: seq<string>, start: nat, pre: seq<string>, contents: string, post: seq<string>)
    requires contents != "" && contents[|contents|-1] == '\n' && NoReturnPair(contents)
    requires (post != [] ==> Opens(post[0])) && start == |pre| && body == pre + Plus(ContentLines(contents)) + post
    ensures Added(body, start) == Ok((contents, start + |Plus(ContentLines(contents))|))
  {
    hide *;
    SplitEnded(contents);
    AddReads(pre, ContentLines(contents), post, "");
    assert "" + Unlines(ContentLines(contents)) == contents;
    PlusLength(ContentLines(contents));
    AcceptAdd(body, start, contents, start + |Plus(ContentLines(contents))|);
  }

  lemma AcceptAdd(body: seq<string>, start: nat, contents: string, next: nat)
    requires AddedFrom(body, start, "") == Ok((contents, next)) && start < next
    ensures Added(body, start) == Ok((contents, next))
  {}

  lemma AddReadsBack(pre: seq<string>, h: Hunk, post: seq<string>)
    requires Printable(h) && h.AddFile? && (post != [] ==> Opens(post[0]))
    ensures ReadsBack(pre, h, PrintHunk(h), post)
  {
    hide Added, HunkAt, Opens, Plus;
    var header, lines := addFile + h.path, Plus(ContentLines(h.contents));
    var body := pre + ([header] + lines) + post;
    Behind(pre, header, lines, post);
    PrintedAdd(body, |pre| + 1, pre + [header], h.contents, post);
    AddByHeader(body, |pre|, h.path, h.contents, |pre| + 1 + |lines|);
  }

  lemma DeleteReadsBack(pre: seq<string>, h: Hunk, post: seq<string>)
    requires Printable(h) && h.DeleteFile? && (post != [] ==> Opens(post[0]))
    ensures ReadsBack(pre, h, PrintHunk(h), post)
  {
    var header := deleteFile + h.path;
    var body := pre + ([header] + []) + post;
    Behind(pre, header, [], post);
    DeleteByHeader(body, |pre|, h.path);
    assert [header] + [] == PrintHunk(h);
  }

  lemma HunkReadsBack(pre: seq<string>, h: Hunk, post: seq<string>)
    requires Printable(h) && (post != [] ==> Opens(post[0]))
    ensures ReadsBack(pre, h, PrintHunk(h), post)
  {
    match h
    case AddFile(_, _) => AddReadsBack(pre, h, post);
    case DeleteFile(_) => DeleteReadsBack(pre, h, post);
    case UpdateFile(_, _) => UpdateReadsBack(pre, h, post);
  }

  lemma HunksOpen(hunks: seq<Hunk>)
    requires forall h :: h in hunks ==> Printable(h)
    ensures PrintHunks(hunks) != [] ==> Opens(PrintHunks(hunks)[0])
  {
    if hunks != [] {
      assert hunks[0] in hunks;
      HeaderLine(if hunks[0].AddFile? then addFile else if hunks[0].DeleteFile? then deleteFile else updateFile, hunks[0].path);
    }
  }

  lemma {:induction false} HunksReadBack(pre: seq<string>, hunks: seq<Hunk>, done: seq<Hunk>)
    requires forall h :: h in hunks ==> Printable(h)
    ensures HunksFrom(pre + PrintHunks(hunks), |pre|, done) == Ok(done + hunks)
    decreases |hunks|
  {
    hide Printable, HunkAt, PrintHunk, Opens;
    if hunks == [] {
      assert done + hunks == done && pre + PrintHunks(hunks) == pre;
    } else {
      var h, later := hunks[0], PrintHunks(hunks[1..]);
      assert h in hunks;
      HunksOpen(hunks[1..]);
      HunkReadsBack(pre, h, later);
      HunksReadBack(pre + PrintHunk(h), hunks[1..], done + [h]);
      var body := pre + PrintHunk(h) + later;
      assert body == pre + PrintHunks(hunks);
      HunksUnfold(body, |pre|, h, |pre| + |PrintHunk(h)|, done);
      assert done + [h] + hunks[1..] == done + hunks;
    }
  }

  lemma HunksUnfold(body: seq<string>, i: nat, h: Hunk, next: nat, done: seq<Hunk>)
    requires i < |body| && HunkAt(body, i) == Ok((h, next))
    ensures HunksFrom(body, i, done) == HunksFrom(body, next, done + [h])
  {}

  // ---------- the text as a whole ----------

  lemma HunkClean(h: Hunk)
    requires Printable(h)
    ensures AllClean(PrintHunk(h))
  {
    match h
    case AddFile(path, contents) =>
      HeaderLine(addFile, path);
      SplitEnded(contents);
      PlusInner(ContentLines(contents));
    case DeleteFile(path) =>
      HeaderLine(deleteFile, path);
    case UpdateFile(path, chunks) =>
      HeaderLine(updateFile, path);
      ChunksInner(chunks);
  }

  lemma {:induction false} HunksClean(hunks: seq<Hunk>)
    requires forall h :: h in hunks ==> Printable(h)
    ensures AllClean(PrintHunks(hunks))
  {
    if hunks != [] {
      assert hunks[0] in hunks;
      HunkClean(hunks[0]);
      HunksClean(hunks[1..]);
    }
  }

  lemma {:induction false} JoinEnds(lines: seq<string>)
    requires lines != [] && lines[0] != "" && lines[|lines|-1] != ""
    ensures var s, last := JoinLines(lines), lines[|lines|-1];
            s != "" && s[0] == lines[0][0] && s[|s|-1] == last[|last|-1]
  {
    if |lines| > 1 {
      JoinLast(lines);
    }
  }

  lemma {:induction false} JoinLast(lines: seq<string>)
    requires lines != [] && lines[|lines|-1] != ""
    ensures var s, last := JoinLines(lines), lines[|lines|-1];
            s != "" && s[|s|-1] == last[|last|-1]
  {
    if |lines| > 1 { JoinLast(lines[1..]); }
  }

  lemma MarkersClean()
    ensures CleanLine(beginPatch) && CleanLine(endPatch)
    ensures TrimSpace(beginPatch) == beginPatch && TrimSpace(endPatch) == endPatch
  {
    assert beginPatch[0] == '*' && beginPatch[|beginPatch|-1] == 'h';
    assert endPatch[0] == '*' && endPatch[|endPatch|-1] == 'h';
    TightStays(beginPatch);
    TightStays(endPatch);
  }

  lemma LinesReadBack(lines: seq<string>)
    requires |lines| >= 2 && AllClean(lines) && lines[0] == beginPatch && lines[|lines|-1] == endPatch
    ensures PatchLines(JoinLines(lines)) == lines
  {
    assert beginPatch[0] == '*';
    assert !HeredocStart(lines[0]);
    assert forall l :: l in lines ==> CleanLine(l) && NoNewline(l);
    hide *;
    JoinedTight(lines);
    CleanJoin(lines);
    NothingToFold(JoinLines(lines));
    SplitJoin(lines);
    PlainLines(JoinLines(lines), lines);
  }

  lemma PlainLines(s: string, lines: seq<string>)
    requires TrimSpace(s) == s && FoldReturns(s) == s && Split(s) == lines && lines != [] && !HeredocStart(lines[0])
    ensures PatchLines(s) == lines
  {
    hide TrimSpace, FoldReturns, Split, HeredocStart, HasSuffix;
  }

  lemma JoinedTight(lines: seq<string>)
    requires |lines| >= 2 && lines[0] == beginPatch && lines[|lines|-1] == endPatch
    ensures TrimSpace(JoinLines(lines)) == JoinLines(lines)
  {
    JoinEnds(lines);
    assert beginPatch[0] == '*' && endPatch[|endPatch|-1] == 'h';
    TightStays(JoinLines(lines));
  }

  /** The parser undoes the printer on every list of printable hunks. */
  lemma ParsePrint(hunks: seq<Hunk>)
    requires hunks != [] && forall h :: h in hunks ==> Printable(h)
    ensures Parsed(Print(hunks)) == Ok(hunks)
  {
    var printed := PrintHunks(hunks);
    var lines := [beginPatch] + printed + [endPatch];
    MarkersClean();
    HunksClean(hunks);
    LinesReadBack(lines);
    assert lines[..|lines|-1] == [beginPatch] + printed;
    HunksReadBack([beginPatch], hunks, []);
    assert [] + hunks == hunks;
  }
}
