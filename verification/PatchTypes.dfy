/** The parsed form of a patch (internal/tools/applypatch/types.go). */
module PatchTypes {
  import opened Basics

  datatype Chunk = Chunk(
    changeContext: Option<string>,
    oldLines: seq<string>,
    newLines: seq<string>,
    contexts: seq<(nat, nat)>,
    isEndOfFile: bool)

  datatype Hunk =
    | AddFile(path: string, contents: string)
    | DeleteFile(path: string)
    | UpdateFile(path: string, chunks: seq<Chunk>)

  const emptyChunk: Chunk := Chunk(None, [], [], [], false)

  /** `pushContextLine`: the line joins both sides and the pair of positions is recorded. */
  function PushContext(c: Chunk, line: string): Chunk {
    c.(contexts := c.contexts + [(|c.oldLines|, |c.newLines|)],
       oldLines := c.oldLines + [line],
       newLines := c.newLines + [line])
  }

  predicate LinkedPair(olds: seq<string>, news: seq<string>, contexts: seq<(nat, nat)>, k: nat)
    requires k < |contexts|
  {
    contexts[k].0 < |olds| && contexts[k].1 < |news| && olds[contexts[k].0] == news[contexts[k].1]
  }

  predicate Ascending(contexts: seq<(nat, nat)>) {
    forall k, l :: 0 <= k < l < |contexts| ==> contexts[k].0 < contexts[l].0 && contexts[k].1 < contexts[l].1
  }

  predicate Linked(olds: seq<string>, news: seq<string>, contexts: seq<(nat, nat)>) {
    Ascending(contexts) && forall k :: 0 <= k < |contexts| ==> LinkedPair(olds, news, contexts, k)
  }

  /** Context pairs point at equal lines inside both sides and increase strictly on both. */
  predicate LinkedContexts(c: Chunk) {
    Linked(c.oldLines, c.newLines, c.contexts)
  }

  lemma PushKeepsLinks(c: Chunk, line: string)
    requires LinkedContexts(c)
    ensures LinkedContexts(PushContext(c, line))
    ensures LinkedContexts(c.(oldLines := c.oldLines + [line]))
    ensures LinkedContexts(c.(newLines := c.newLines + [line]))
  {
    forall k | 0 <= k < |c.contexts|
      ensures var p := PushContext(c, line); LinkedPair(p.oldLines, p.newLines, p.contexts, k)
      ensures LinkedPair(c.oldLines + [line], c.newLines, c.contexts, k)
      ensures LinkedPair(c.oldLines, c.newLines + [line], c.contexts, k)
    {
      assert LinkedPair(c.oldLines, c.newLines, c.contexts, k);
    }
    var p := PushContext(c, line);
    assert LinkedPair(p.oldLines, p.newLines, p.contexts, |c.contexts|);
    forall k, l | 0 <= k < l < |p.contexts|
      ensures p.contexts[k].0 < p.contexts[l].0 && p.contexts[k].1 < p.contexts[l].1
    {
      assert LinkedPair(c.oldLines, c.newLines, c.contexts, k);
    }
  }
}
