/** Drafts, their growth by deltas, and the updates a run publishes (internal/runner/emit.go). */
module RunUpdates {
  import opened Basics
  import opened Messages
  import opened Ledger

  datatype Draft = Draft(entryID: Id, afterEntrySeq: nat, blocks: seq<Block>)

  datatype Update =
    | Started(entryID: Id, after: nat)
    | Delta(entryID: Id, kind: string, text: string, blockSeq: nat, after: nat)
    | Landed(entry: Entry)
    | RunEnded
    | Other

  datatype Event = Event(sessionID: string, epoch: string, updateSeq: nat, update: Update)

  const emptyBlock := Block("", "", None, None, None, None)

  function BlockAt(blocks: seq<Block>, i: nat): Block {
    if i < |blocks| then blocks[i] else emptyBlock
  }

  function Extended(b: Block, kind: string, text: string): Block {
    b.(kind := if b.kind == "" then kind else b.kind, text := b.text + text)
  }

  /** `applyDraftText`: text goes behind that of block `blockSeq`, counted from 1; missing blocks
      in front of it are left empty. */
  function DraftText(blocks: seq<Block>, kind: string, text: string, blockSeq: nat): (r: seq<Block>)
    ensures blockSeq == 0 ==> r == blocks
    ensures blockSeq > 0 ==> |r| == (if |blocks| >= blockSeq then |blocks| else blockSeq)
    ensures blockSeq > 0 ==> forall i :: 0 <= i < |r| ==>
              r[i] == if i == blockSeq - 1 then Extended(BlockAt(blocks, i), kind, text) else BlockAt(blocks, i)
  {
    if blockSeq == 0 then blocks
    else seq(if |blocks| >= blockSeq then |blocks| else blockSeq,
             i requires 0 <= i => if i == blockSeq - 1 then Extended(BlockAt(blocks, i), kind, text) else BlockAt(blocks, i))
  }

  method ApplyDraftText(before: seq<Block>, kind: string, text: string, blockSeq: nat) returns (blocks: seq<Block>)
    ensures blocks == DraftText(before, kind, text, blockSeq)
    ensures blockSeq > 0 ==>
              && blockSeq <= |blocks| && blocks[blockSeq-1].text == BlockAt(before, blockSeq - 1).text + text
              && (BlockAt(before, blockSeq - 1).kind != "" ==> blocks[blockSeq-1].kind == BlockAt(before, blockSeq - 1).kind)
              && (BlockAt(before, blockSeq - 1).kind == "" ==> blocks[blockSeq-1].kind == kind)
    ensures forall i :: 0 <= i < |before| && i != blockSeq - 1 ==> blocks[i] == before[i]
  {
    blocks := before;
    if blockSeq == 0 { return; }
    var index := blockSeq - 1;
    while |blocks| <= index
      invariant |before| <= |blocks| && (|blocks| <= blockSeq || |blocks| == |before|)
      invariant forall i :: 0 <= i < |blocks| ==> blocks[i] == BlockAt(before, i)
    {
      blocks := blocks + [emptyBlock];
    }
    if blocks[index].kind == "" {
      blocks := blocks[index := blocks[index].(kind := kind)];
    }
    blocks := blocks[index := blocks[index].(text := blocks[index].text + text)];
  }

  // ---------- content of a draft ----------

  predicate HasContent(blocks: seq<Block>) {
    exists i :: 0 <= i < |blocks| && (blocks[i].text != "" || blocks[i].tool.Some?)
  }

  predicate TidyBlock(b: Block) {
    b.tool.None? && b.kind in {"", "text", "reasoning"} && (b.text != "" ==> b.kind != "")
  }

  /** Drafts only ever hold streamed text: no content means no blocks at all. */
  predicate Tidy(blocks: seq<Block>) {
    && (forall i :: 0 <= i < |blocks| ==> TidyBlock(blocks[i]))
    && (blocks == [] || HasContent(blocks))
  }

  lemma DraftTextTidy(blocks: seq<Block>, kind: string, text: string, blockSeq: nat)
    requires Tidy(blocks) && kind in {"text", "reasoning"} && text != ""
    ensures var r := DraftText(blocks, kind, text, blockSeq);
            Tidy(r) && (blockSeq > 0 ==> HasContent(r))
  {
    var r := DraftText(blocks, kind, text, blockSeq);
    if blockSeq > 0 {
      assert r[blockSeq-1].text != "";
    }
  }

  // ---------- a draft that outlives its run ----------

  /** A block that is written when its draft outlives the run. */
  predicate Speaks(b: Block) {
    (b.kind == "text" || b.kind == "reasoning") && b.text != ""
  }

  function Incomplete(blocks: seq<Block>): seq<Block> {
    if blocks == [] then []
    else
      var last := blocks[|blocks|-1];
      Incomplete(blocks[..|blocks|-1])
      + (if (last.kind == "text" || last.kind == "reasoning") && last.text != "" then [last] else [])
  }

  method IncompleteFromDraft(draft: Draft) returns (blocks: seq<Block>)
    ensures blocks == Incomplete(draft.blocks)
  {
    blocks := [];
    for i := 0 to |draft.blocks|
      invariant blocks == Incomplete(draft.blocks[..i])
    {
      assert draft.blocks[..i+1][..i] == draft.blocks[..i];
      var block := draft.blocks[i];
      if (block.kind == "text" || block.kind == "reasoning") && block.text != "" {
        blocks := blocks + [block];
      }
    }
    assert draft.blocks[..|draft.blocks|] == draft.blocks;
  }

  /** Exactly the text and reasoning blocks with text are written, each once and in the draft's order. */
  lemma {:induction false} IncompleteKeeps(blocks: seq<Block>)
    ensures Sifted(Speaks, blocks, Incomplete(blocks))
    ensures forall b :: Speaks(b) <==> b.kind in {"text", "reasoning"} && b.text != ""
  {
    hide Sifted;
    if blocks == [] {
      SiftedNothing(Speaks);
    } else {
      var front, last := blocks[..|blocks|-1], blocks[|blocks|-1];
      IncompleteKeeps(front);
      SiftedLast(Speaks, front, Incomplete(front), last);
      IncompleteNext(front, last);
      assert blocks == front + [last];
    }
  }

  lemma IncompleteNext(front: seq<Block>, last: Block)
    ensures Incomplete(front + [last]) == if Speaks(last) then Incomplete(front) + [last] else Incomplete(front)
  {
    assert (front + [last])[..|front|] == front && Incomplete(front) + [] == Incomplete(front);
  }

  lemma {:induction false} SilentIsDropped(blocks: seq<Block>)
    ensures Incomplete(blocks) == [] <==> forall i :: 0 <= i < |blocks| ==> !Speaks(blocks[i])
  {
    if blocks != [] {
      var front, last := blocks[..|blocks|-1], blocks[|blocks|-1];
      SilentIsDropped(front);
      IncompleteNext(front, last);
      assert blocks == front + [last];
      hide Incomplete, Speaks;
    }
  }

  /** No word of a draft is lost on the way into the ledger. */
  lemma {:induction false} NoWordLost(blocks: seq<Block>)
    requires forall i :: 0 <= i < |blocks| ==> TidyBlock(blocks[i])
    ensures Said(Incomplete(blocks)) == Said(blocks)
  {
    if blocks != [] {
      var front, last := blocks[..|blocks|-1], blocks[|blocks|-1];
      NoWordLost(front);
      assert TidyBlock(last);
      assert Incomplete(front) + [] == Incomplete(front) && Said(front) + "" == Said(front);
      if Speaks(last) { SaidNext(Incomplete(front), last); }
    }
  }

  /** Nothing of a draft with content is silently dropped at the end of a run. */
  lemma {:induction false} ContentSurvives(blocks: seq<Block>)
    requires forall i :: 0 <= i < |blocks| ==> TidyBlock(blocks[i])
    ensures Incomplete(blocks) == [] <==> !HasContent(blocks)
  {
    if blocks != [] {
      var front, last := blocks[..|blocks|-1], blocks[|blocks|-1];
      ContentSurvives(front);
      assert TidyBlock(last);
      ContentSplit(front, last);
      assert blocks == front + [last];
    }
  }

  lemma ContentSplit(front: seq<Block>, last: Block)
    ensures HasContent(front + [last]) <==> HasContent(front) || last.text != "" || last.tool.Some?
  {
    var all := front + [last];
    assert forall i :: 0 <= i < |front| ==> all[i] == front[i];
    assert all[|front|] == last;
  }
}
