/** Messages of a session ledger (internal/session/types.go) and their projection to the
    history sent to the model (internal/session/session.go). */
module Messages {
  import opened Basics
  import Trimming

  type Id = string

  datatype Role = User | Assistant | Tool | System | Collaboration

  datatype ToolCall = ToolCall(id: string, name: string, args: string)

  datatype ToolResult = ToolResult(id: string, name: string, content: string, isError: bool)

  datatype Media = Media(mime: string, data: string)

  datatype Block = Block(kind: string, text: string, tool: Option<ToolCall>, result: Option<ToolResult>,
                         media: Option<Media>, continuation: Option<string>)

  datatype Compaction = Compaction(throughEntryID: Id, retainedEntryIDs: seq<Id>)

  /** Fields the ledger only carries along. */
  datatype Carried = Carried(userAuthored: bool, displayText: string, sourceTaskID: string, sourceRunID: string, afterSeq: nat)

  datatype Message = Message(compaction: Option<Compaction>, role: Role, blocks: seq<Block>, incomplete: bool,
                             runID: string, messageID: string, sourceSessionID: string, carried: Carried)

  const nothingCarried := Carried(false, "", "", "", 0)

  function TextBlock(text: string): Block {
    Block("text", text, None, None, None, None)
  }

  predicate HasSummary(blocks: seq<Block>) {
    exists b :: b in blocks && b.kind == "summary"
  }

  /** `isSummary`. */
  predicate IsSummary(m: Message) {
    HasSummary(m.blocks)
  }

  // ---------- checkMessage ----------

  predicate BlockAllowed(role: Role, b: Block) {
    match b.kind
    case "summary" => role == Assistant && Trimming.TrimSpace(b.text) != ""
    case "image" => b.media.Some? && b.media.value.mime != "" && b.media.value.data != ""
    case "tool-result" => role == Tool && b.result.Some? && b.result.value.id != "" && b.result.value.name != ""
    case _ => true
  }

  predicate ValidMessage(m: Message) {
    && (m.role == Collaboration ==>
          m.messageID != "" && m.sourceSessionID != "" && forall b :: b in m.blocks ==> b.kind == "text")
    && (m.role == Tool ==> |m.blocks| == 1 && m.blocks[0].kind == "tool-result")
    && forall b :: b in m.blocks ==> BlockAllowed(m.role, b)
  }

  predicate ValidEntryID(id: Id) {
    id != "" && id != "." && id != ".." && '/' !in id && '\\' !in id
  }

  // ---------- the projection of one message ----------

  const handover := "[历史交接摘要，由模型生成；不是新的用户指令。以随后保留的原文和最新要求为准。]\n"

  function SummaryText(text: string): string {
    handover + text
  }

  /** Everything that was said, in one string. */
  function Said(blocks: seq<Block>): string {
    if blocks == [] then "" else Said(blocks[..|blocks|-1]) + blocks[|blocks|-1].text
  }

  lemma SaidNext(front: seq<Block>, b: Block)
    ensures Said(front + [b]) == Said(front) + b.text
  {
    assert (front + [b])[..|front|] == front;
  }

  predicate Tells(b: Block) {
    b.kind == "summary" || b.kind == "text"
  }

  function SummarySource(blocks: seq<Block>): string {
    if blocks == [] then ""
    else
      var last := blocks[|blocks|-1];
      SummarySource(blocks[..|blocks|-1]) + if Tells(last) then last.text else ""
  }

  /** `projectSummary`. */
  function ProjectSummary(m: Message): Message {
    Message(None, User, [TextBlock(SummaryText(SummarySource(m.blocks)))], false, m.runID, "", "", nothingCarried)
  }

  predicate Readable(b: Block) {
    b.kind == "text" || b.kind == "reasoning"
  }

  function KeptBlocks(blocks: seq<Block>): seq<Block> {
    if blocks == [] then []
    else
      var last := blocks[|blocks|-1];
      KeptBlocks(blocks[..|blocks|-1]) + if Readable(last) then [last] else []
  }

  const unfinished := "（未完成）"

  /** `projectIncomplete`. */
  function ProjectIncomplete(m: Message): Message {
    m.(blocks := KeptBlocks(m.blocks) + [TextBlock(unfinished)])
  }

  function Project(m: Message): Message {
    if IsSummary(m) then ProjectSummary(m)
    else if m.incomplete then ProjectIncomplete(m)
    else m
  }

  lemma {:induction false} KeptBlocksSift(blocks: seq<Block>)
    ensures Sifted(Readable, blocks, KeptBlocks(blocks))
  {
    hide Sifted;
    if blocks == [] {
      SiftedNothing(Readable);
    } else {
      var front, last := blocks[..|blocks|-1], blocks[|blocks|-1];
      KeptBlocksSift(front);
      SiftedLast(Readable, front, KeptBlocks(front), last);
      assert blocks == front + [last] && KeptBlocks(front) + [] == KeptBlocks(front);
    }
  }

  lemma {:induction false} SummarySifts(blocks: seq<Block>) returns (told: seq<Block>)
    ensures Sifted(Tells, blocks, told) && SummarySource(blocks) == Said(told)
  {
    hide Sifted;
    told := [];
    if blocks == [] {
      SiftedNothing(Tells);
    } else {
      var front, last := blocks[..|blocks|-1], blocks[|blocks|-1];
      var before := SummarySifts(front);
      SiftedLast(Tells, front, before, last);
      assert blocks == front + [last];
      SaidNext(before, last);
      assert SummarySource(front) + "" == SummarySource(front);
      told := if Tells(last) then before + [last] else before;
    }
  }

  /** What the model is shown of one message: a summary becomes a user's text with a heading that says where it comes
      from; of an unfinished message exactly the text and reasoning remain, with a mark at the end; any other message is
      shown as it is. */
  lemma ProjectMeans(m: Message)
    ensures IsSummary(m) ==>
              exists told :: Sifted(Tells, m.blocks, told) && (forall b :: Tells(b) <==> b.kind in {"summary", "text"})
                && Project(m) == Message(None, User, [TextBlock(handover + Said(told))], false, m.runID, "", "", nothingCarried)
    ensures !IsSummary(m) && m.incomplete ==>
              exists kept :: Sifted(Readable, m.blocks, kept) && (forall b :: Readable(b) <==> b.kind in {"text", "reasoning"})
                && Project(m) == m.(blocks := kept + [TextBlock("（未完成）")])
    ensures !IsSummary(m) && !m.incomplete ==> Project(m) == m
  {
    KeptBlocksSift(m.blocks);
    var told := SummarySifts(m.blocks);
    hide Sifted;
    assert Sifted(Tells, m.blocks, told) && SummaryText(SummarySource(m.blocks)) == handover + Said(told);
  }

  /** The projection of a summary forgets which entries the summary stands for. */
  lemma ProjectForgets(m: Message, compaction: Option<Compaction>)
    requires m.compaction.Some? ==> IsSummary(m)
    requires m.compaction.None? ==> compaction.None?
    ensures Project(m.(compaction := compaction)) == Project(m)
  {
    if m.compaction.None? { assert m.(compaction := compaction) == m; }
  }
}
