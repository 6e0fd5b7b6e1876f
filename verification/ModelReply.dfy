/** How the answer of the model is put together from the stream (internal/loops/react/react.go). */
module ModelReply {
  import opened Basics
  import opened Messages

  datatype Failure = Canceled | EmitFailed | ContextWindow | RequestFailed | CheckpointFailed | CompactFailed

  datatype Chunk =
    | ReasoningChunk(text: string)
    | TextChunk(text: string)
    | ContinuationChunk(text: string)
    | CallChunk(call: ToolCall, continuation: Option<string>)
    | FinishChunk
    | ErrorChunk(failure: Option<Failure>)

  // ---------- the blocks of an answer ----------

  function CallIds(blocks: seq<Block>): seq<string> {
    if blocks == [] then []
    else
      var b := blocks[|blocks|-1];
      CallIds(blocks[..|blocks|-1]) + if b.tool.Some? then [b.tool.value.id] else []
  }

  /** The calls in the blocks, in order. */
  function CallsIn(blocks: seq<Block>): seq<ToolCall> {
    if blocks == [] then []
    else
      var b := blocks[|blocks|-1];
      CallsIn(blocks[..|blocks|-1]) + if b.tool.Some? then [b.tool.value] else []
  }

  function Ids(calls: seq<ToolCall>): seq<string> {
    if calls == [] then [] else Ids(calls[..|calls|-1]) + [calls[|calls|-1].id]
  }

  lemma {:induction false} IdsAt(calls: seq<ToolCall>, i: nat)
    requires i <= |calls|
    ensures |Ids(calls)| == |calls| && (i < |calls| ==> Ids(calls)[i] == calls[i].id)
  {
    if calls != [] { IdsAt(calls[..|calls|-1], if i < |calls| then i else i - 1); }
  }

  lemma IdsNext(calls: seq<ToolCall>, call: ToolCall)
    ensures Ids(calls + [call]) == Ids(calls) + [call.id]
  {
    assert (calls + [call])[..|calls|] == calls;
  }

  lemma {:induction false} IdsOfCalls(blocks: seq<Block>)
    ensures CallIds(blocks) == Ids(CallsIn(blocks))
  {
    if blocks != [] {
      var front, b := blocks[..|blocks|-1], blocks[|blocks|-1];
      IdsOfCalls(front);
      if b.tool.Some? { IdsNext(CallsIn(front), b.tool.value); }
      assert CallsIn(front) + [] == CallsIn(front) && CallIds(front) + [] == CallIds(front);
    }
  }

  /** An answer in the making: text, reasoning, and calls in blocks of their own; no results. */
  predicate OutgoingBlock(b: Block) {
    && b.result.None? && b.kind in {"text", "reasoning", "tool-call"}
    && (b.kind == "tool-call" <==> b.tool.Some?) && (b.tool.Some? ==> b.text == "")
  }

  predicate Outgoing(blocks: seq<Block>) {
    forall b :: b in blocks ==> OutgoingBlock(b)
  }

  /** `appendTextBlock`. */
  function AppendText(blocks: seq<Block>, kind: string, text: string): seq<Block> {
    var last := |blocks| - 1;
    if text == "" then blocks
    else if last >= 0 && blocks[last].kind == kind && blocks[last].continuation.None? then
      blocks[last := blocks[last].(text := blocks[last].text + text)]
    else blocks + [Block(kind, text, None, None, None, None)]
  }

  function AppendContinuation(blocks: seq<Block>, continuation: string): seq<Block> {
    var last := |blocks| - 1;
    if last >= 0 && blocks[last].kind == "reasoning" && blocks[last].continuation.None? then
      blocks[last := blocks[last].(continuation := Some(continuation))]
    else blocks + [Block("reasoning", "", None, None, None, Some(continuation))]
  }

  function CallBlock(call: ToolCall, continuation: Option<string>): Block {
    Block("tool-call", "", Some(call), None, None, continuation)
  }

  function Speaking(b: Block): bool {
    (b.kind == "text" || b.kind == "reasoning") && b.text != ""
  }

  /** `incompleteAssistant`: only what the user has already read. */
  function Spoken(blocks: seq<Block>): seq<Block> {
    if blocks == [] then []
    else
      var b := blocks[|blocks|-1];
      Spoken(blocks[..|blocks|-1]) + if Speaking(b) then [b.(continuation := None)] else []
  }

  // ---------- what the model has said ----------

  /** One letter of text or reasoning, one call, or one continuation token. */
  datatype Utterance = Letter(kind: string, letter: char) | Called(call: ToolCall) | Continued(token: string)

  function Letters(kind: string, text: string): (u: seq<Utterance>)
    ensures |u| == |text| && forall i :: 0 <= i < |u| ==> u[i] == Letter(kind, text[i])
  {
    seq(|text|, i requires 0 <= i < |text| => Letter(kind, text[i]))
  }

  function Token(continuation: Option<string>): seq<Utterance> {
    if continuation.Some? then [Continued(continuation.value)] else []
  }

  function OfBlock(b: Block): seq<Utterance> {
    (if b.tool.Some? then [Called(b.tool.value)] else Letters(b.kind, b.text)) + Token(b.continuation)
  }

  /** Everything an answer says, in order. */
  function Uttered(blocks: seq<Block>): seq<Utterance> {
    if blocks == [] then [] else Uttered(blocks[..|blocks|-1]) + OfBlock(blocks[|blocks|-1])
  }

  function OfChunk(c: Chunk): seq<Utterance> {
    match c
    case ReasoningChunk(text) => Letters("reasoning", text)
    case TextChunk(text) => Letters("text", text)
    case ContinuationChunk(token) => [Continued(token)]
    case CallChunk(call, continuation) => [Called(call)] + Token(continuation)
    case FinishChunk => []
    case ErrorChunk(_) => []
  }

  /** Everything the stream has brought, in order. */
  function Streamed(chunks: seq<Chunk>): seq<Utterance> {
    if chunks == [] then [] else Streamed(chunks[..|chunks|-1]) + OfChunk(chunks[|chunks|-1])
  }

  function CallsOf(said: seq<Utterance>): seq<ToolCall> {
    if said == [] then []
    else
      var u := said[|said|-1];
      CallsOf(said[..|said|-1]) + if u.Called? then [u.call] else []
  }

  /** Only the letters of it. */
  function Worded(said: seq<Utterance>): seq<Utterance> {
    if said == [] then []
    else
      var u := said[|said|-1];
      Worded(said[..|said|-1]) + if u.Letter? then [u] else []
  }

  // ---------- nothing gets lost or out of order ----------

  lemma UtteredNext(blocks: seq<Block>, b: Block)
    ensures Uttered(blocks + [b]) == Uttered(blocks) + OfBlock(b)
  {
    assert (blocks + [b])[..|blocks|] == blocks;
  }

  lemma UtteredLast(blocks: seq<Block>, b: Block)
    requires blocks != []
    ensures var last := |blocks| - 1;
            Uttered(blocks[last := b]) == Uttered(blocks[..last]) + OfBlock(b) && Uttered(blocks) == Uttered(blocks[..last]) + OfBlock(blocks[last])
  {
    assert blocks[|blocks|-1 := b][..|blocks|-1] == blocks[..|blocks|-1];
  }

  lemma CallIdsNext(blocks: seq<Block>, b: Block)
    ensures CallIds(blocks + [b]) == CallIds(blocks) + if b.tool.Some? then [b.tool.value.id] else []
    ensures CallsIn(blocks + [b]) == CallsIn(blocks) + if b.tool.Some? then [b.tool.value] else []
  {
    assert (blocks + [b])[..|blocks|] == blocks;
  }

  lemma CallIdsKeptLast(blocks: seq<Block>, b: Block)
    requires blocks != [] && blocks[|blocks|-1].tool == b.tool
    ensures CallIds(blocks[|blocks|-1 := b]) == CallIds(blocks) && CallsIn(blocks[|blocks|-1 := b]) == CallsIn(blocks)
  {
    assert blocks[|blocks|-1 := b][..|blocks|-1] == blocks[..|blocks|-1];
  }

  lemma LettersJoin(kind: string, a: string, b: string)
    ensures Letters(kind, a + b) == Letters(kind, a) + Letters(kind, b)
  {}

  lemma OutgoingLast(blocks: seq<Block>, b: Block)
    requires Outgoing(blocks) && OutgoingBlock(b)
    ensures Outgoing(blocks + [b])
    ensures blocks != [] ==> Outgoing(blocks[|blocks|-1 := b])
  {
    if blocks != [] {
      var changed := blocks[|blocks|-1 := b];
      forall x | x in changed
        ensures OutgoingBlock(x)
      {
        var i :| 0 <= i < |changed| && changed[i] == x;
        assert i < |blocks| - 1 ==> blocks[i] in blocks;
      }
    }
  }

  lemma LongerSays(b: Block, text: string)
    requires b.tool.None? && b.continuation.None?
    ensures OfBlock(b.(text := b.text + text)) == OfBlock(b) + Letters(b.kind, text)
  {
    LettersJoin(b.kind, b.text, text);
    hide Letters;
  }

  lemma LastLonger(blocks: seq<Block>, text: string)
    requires Outgoing(blocks) && blocks != []
    requires var b := blocks[|blocks|-1]; b.kind in {"text", "reasoning"} && b.continuation.None?
    ensures var b := blocks[|blocks|-1];
            var r := blocks[|blocks|-1 := b.(text := b.text + text)];
            Outgoing(r) && CallsIn(r) == CallsIn(blocks) && Uttered(r) == Uttered(blocks) + Letters(b.kind, text)
  {
    var b := blocks[|blocks|-1];
    assert b in blocks && OutgoingBlock(b);
    var longer := b.(text := b.text + text);
    OutgoingLast(blocks, longer);
    hide *;
    CallIdsKeptLast(blocks, longer);
    UtteredLast(blocks, longer);
    LongerSays(b, text);
    var front := Uttered(blocks[..|blocks|-1]);
    assert front + (OfBlock(b) + Letters(b.kind, text)) == front + OfBlock(b) + Letters(b.kind, text);
  }

  lemma NewText(blocks: seq<Block>, kind: string, text: string)
    requires Outgoing(blocks) && kind in {"text", "reasoning"}
    ensures var r := blocks + [Block(kind, text, None, None, None, None)];
            Outgoing(r) && CallsIn(r) == CallsIn(blocks) && Uttered(r) == Uttered(blocks) + Letters(kind, text)
  {
    var b := Block(kind, text, None, None, None, None);
    assert OfBlock(b) == Letters(kind, text) + [] == Letters(kind, text);
    OutgoingLast(blocks, b);
    hide *;
    CallIdsNext(blocks, b);
    UtteredNext(blocks, b);
    assert CallsIn(blocks) + [] == CallsIn(blocks);
  }

  lemma TextKeeps(blocks: seq<Block>, kind: string, text: string)
    requires Outgoing(blocks) && kind in {"text", "reasoning"}
    ensures var r := AppendText(blocks, kind, text);
            Outgoing(r) && CallsIn(r) == CallsIn(blocks) && Uttered(r) == Uttered(blocks) + Letters(kind, text)
    ensures text != "" ==> AppendText(blocks, kind, text) != []
  {
    hide Letters, OfBlock, Uttered, CallsIn, Outgoing;
    var last := |blocks| - 1;
    if text == "" {
      assert |Letters(kind, text)| == 0;
      assert Uttered(blocks) + Letters(kind, text) == Uttered(blocks);
    } else if last >= 0 && blocks[last].kind == kind && blocks[last].continuation.None? {
      LastLonger(blocks, text);
    } else {
      NewText(blocks, kind, text);
    }
  }

  lemma ContinuationKeeps(blocks: seq<Block>, token: string)
    requires Outgoing(blocks)
    ensures var r := AppendContinuation(blocks, token);
            Outgoing(r) && CallsIn(r) == CallsIn(blocks) && Uttered(r) == Uttered(blocks) + [Continued(token)]
  {
    var last := |blocks| - 1;
    if last >= 0 && blocks[last].kind == "reasoning" && blocks[last].continuation.None? {
      var b := blocks[last];
      var more := b.(continuation := Some(token));
      assert b in blocks && OutgoingBlock(b);
      OutgoingLast(blocks, more);
      CallIdsKeptLast(blocks, more);
      UtteredLast(blocks, more);
      assert OfBlock(more) == OfBlock(b) + [Continued(token)];
      hide Letters, OfBlock, Uttered;
    } else {
      var b := Block("reasoning", "", None, None, None, Some(token));
      OutgoingLast(blocks, b);
      CallIdsNext(blocks, b);
      UtteredNext(blocks, b);
      assert OfBlock(b) == [Continued(token)];
    }
  }

  lemma CallKeeps(blocks: seq<Block>, call: ToolCall, continuation: Option<string>)
    requires Outgoing(blocks)
    ensures var r := blocks + [CallBlock(call, continuation)];
            Outgoing(r) && CallsIn(r) == CallsIn(blocks) + [call] && Uttered(r) == Uttered(blocks) + ([Called(call)] + Token(continuation))
  {
    OutgoingLast(blocks, CallBlock(call, continuation));
    CallIdsNext(blocks, CallBlock(call, continuation));
    UtteredNext(blocks, CallBlock(call, continuation));
  }

  lemma {:induction false} WordedConcat(a: seq<Utterance>, b: seq<Utterance>)
    ensures Worded(a + b) == Worded(a) + Worded(b)
  {
    if b == [] {
      assert a + b == a;
    } else {
      assert (a + b)[..|a + b|-1] == a + b[..|b|-1];
      WordedConcat(a, b[..|b|-1]);
    }
  }

  lemma {:induction false} LettersWorded(kind: string, text: string)
    ensures Worded(Letters(kind, text)) == Letters(kind, text)
  {
    var u := Letters(kind, text);
    if text != "" {
      var n := |text| - 1;
      LettersWorded(kind, text[..n]);
      assert u[..n] == Letters(kind, text[..n]);
      assert u == u[..n] + [u[n]];
    }
  }

  lemma WordedBlock(b: Block)
    requires OutgoingBlock(b)
    ensures Worded(OfBlock(b)) == if Speaking(b) then OfBlock(b.(continuation := None)) else []
  {
    var first := if b.tool.Some? then [Called(b.tool.value)] else Letters(b.kind, b.text);
    WordedConcat(first, Token(b.continuation));
    assert Worded([]) == [];
    assert b.continuation.Some? ==> [Continued(b.continuation.value)][..0] == [];
    if b.tool.Some? { assert [Called(b.tool.value)][..0] == []; } else { LettersWorded(b.kind, b.text); }
    hide Letters;
    assert OfBlock(b.(continuation := None)) == first + [] == first;
  }

  /** Of an answer broken off, exactly the letters are kept, in their order. */
  lemma {:induction false} SpokenSays(blocks: seq<Block>)
    requires Outgoing(blocks)
    ensures Outgoing(Spoken(blocks)) && CallsIn(Spoken(blocks)) == []
    ensures Uttered(Spoken(blocks)) == Worded(Uttered(blocks))
    ensures Spoken(blocks) == [] <==> Worded(Uttered(blocks)) == []
  {
    if blocks != [] {
      var front, b := blocks[..|blocks|-1], blocks[|blocks|-1];
      assert b in blocks && forall x :: x in front ==> x in blocks;
      SpokenSays(front);
      WordedBlock(b);
      assert Spoken(blocks) == Spoken(front) + if Speaking(b) then [b.(continuation := None)] else [];
      assert Uttered(blocks) == Uttered(front) + OfBlock(b);
      hide Letters, Worded, OfBlock, Uttered, Spoken, CallsIn;
      WordedConcat(Uttered(front), OfBlock(b));
      if Speaking(b) {
        SpeakingAdds(Spoken(front), b.(continuation := None));
      } else {
        assert Spoken(front) + [] == Spoken(front) && Worded(Uttered(front)) + [] == Worded(Uttered(front));
      }
    }
  }

  lemma SpeakingAdds(front: seq<Block>, b: Block)
    requires Outgoing(front) && OutgoingBlock(b) && Speaking(b)
    ensures Outgoing(front + [b]) && CallsIn(front + [b]) == CallsIn(front) && Uttered(front + [b]) == Uttered(front) + OfBlock(b)
    ensures OfBlock(b) != []
  {
    OutgoingLast(front, b);
    CallIdsNext(front, b);
    UtteredNext(front, b);
    SpeakingSays(b);
    assert CallsIn(front) + [] == CallsIn(front);
  }

  lemma SpeakingSays(b: Block)
    requires OutgoingBlock(b) && Speaking(b)
    ensures OfBlock(b) != []
  {
    assert |Letters(b.kind, b.text)| > 0;
  }

  lemma {:induction false} CallsOfConcat(a: seq<Utterance>, b: seq<Utterance>)
    ensures CallsOf(a + b) == CallsOf(a) + CallsOf(b)
  {
    if b == [] {
      assert a + b == a;
    } else {
      assert (a + b)[..|a + b|-1] == a + b[..|b|-1];
      CallsOfConcat(a, b[..|b|-1]);
    }
  }

  lemma {:induction false} LettersCallNothing(kind: string, text: string)
    ensures CallsOf(Letters(kind, text)) == []
  {
    if text != "" {
      var n := |text| - 1;
      LettersCallNothing(kind, text[..n]);
      assert Letters(kind, text)[..n] == Letters(kind, text[..n]);
    }
  }

  /** The calls of an answer are the calls it utters. */
  lemma {:induction false} CallsUttered(blocks: seq<Block>)
    ensures CallsOf(Uttered(blocks)) == CallsIn(blocks)
  {
    if blocks != [] {
      var front, b := blocks[..|blocks|-1], blocks[|blocks|-1];
      CallsUttered(front);
      var first := if b.tool.Some? then [Called(b.tool.value)] else Letters(b.kind, b.text);
      CallsOfConcat(Uttered(front), OfBlock(b));
      CallsOfConcat(first, Token(b.continuation));
      LettersCallNothing(b.kind, b.text);
      hide Letters;
      assert CallsOf([]) == [];
      if b.continuation.Some? { assert [Continued(b.continuation.value)][..0] == []; }
      if b.tool.Some? { assert [Called(b.tool.value)][..0] == []; }
    }
  }
}
