/** The size estimate of a model request (internal/llm/context.go). */
module Estimates {
  import opened Basics
  import opened Messages

  datatype Input = Input(system: string, history: seq<Message>, tools: seq<string>)

  function Units(text: string): nat {
    if text == "" then 0 else Units(text[..|text|-1]) + (if text[|text|-1] < 128 as char then 1 else 6)
  }

  /** `estimateText`. */
  function TextTokens(text: string): nat {
    (Units(text) + 2) / 3
  }

  lemma {:induction false} UnitsJoin(a: string, b: string)
    ensures Units(a + b) == Units(a) + Units(b)
  {
    if b == [] {
      assert a + b == a;
    } else {
      assert (a + b)[..|a + b|-1] == a + b[..|b|-1];
      UnitsJoin(a, b[..|b|-1]);
    }
  }

  lemma {:induction false} UnitsOfOneKind(text: string, ascii: bool)
    requires forall c :: c in text ==> (ascii <==> c < 128 as char)
    ensures Units(text) == if ascii then |text| else 6 * |text|
  {
    if text != "" {
      var front, last := text[..|text|-1], text[|text|-1];
      assert last in text && forall c :: c in front ==> c in text;
      UnitsOfOneKind(front, ascii);
    }
  }

  /** Three letters of plain ASCII make a token, begun ones counted; every other letter makes two. */
  lemma TextCosts(text: string)
    ensures (forall c :: c in text ==> c < 128 as char) ==> 3 * TextTokens(text) - 2 <= |text| <= 3 * TextTokens(text)
    ensures (forall c :: c in text ==> c >= 128 as char) ==> TextTokens(text) == 2 * |text|
  {
    if forall c :: c in text ==> c < 128 as char { UnitsOfOneKind(text, true); }
    if forall c :: c in text ==> c >= 128 as char { UnitsOfOneKind(text, false); }
  }

  /** Cut anywhere, a text costs what its parts cost, but for one token at most. */
  lemma TextSplits(a: string, b: string)
    ensures TextTokens(a) + TextTokens(b) - 1 <= TextTokens(a + b) <= TextTokens(a) + TextTokens(b)
  {
    UnitsJoin(a, b);
  }

  function BlockTokens(b: Block): nat {
    TextTokens(b.text)
    + (if b.tool.Some? then TextTokens(b.tool.value.name + b.tool.value.args) + 16 else 0)
    + (if b.result.Some? then TextTokens(b.result.value.name + b.result.value.content) + 16 else 0)
    + (if b.media.Some? then 4096 else 0)
    + (if b.continuation.Some? then |b.continuation.value| / 3 else 0)
  }

  /** Whatever else a block holds, a picture in it costs 4096, and a call or a result 16 more than its text. */
  lemma BlockSplits(b: Block)
    ensures BlockTokens(b.(media := None)) + (if b.media.Some? then 4096 else 0) == BlockTokens(b)
    ensures b.tool.Some? ==> BlockTokens(b.(tool := None)) + 16 + TextTokens(b.tool.value.name + b.tool.value.args) == BlockTokens(b)
    ensures b.result.Some? ==> BlockTokens(b.(result := None)) + 16 + TextTokens(b.result.value.name + b.result.value.content) == BlockTokens(b)
    ensures b == Block(b.kind, b.text, None, None, None, None) ==> BlockTokens(b) == TextTokens(b.text)
  {}

  function BlocksTokens(blocks: seq<Block>): nat {
    if blocks == [] then 0 else BlocksTokens(blocks[..|blocks|-1]) + BlockTokens(blocks[|blocks|-1])
  }

  function MessageTokens(m: Message): nat {
    8 + BlocksTokens(m.blocks)
  }

  function HistoryTokens(h: seq<Message>): nat {
    if h == [] then 0 else HistoryTokens(h[..|h|-1]) + MessageTokens(h[|h|-1])
  }

  /** `tools` are the definitions in their JSON form. */
  function ToolsTokens(tools: seq<string>): nat {
    if tools == [] then 0 else ToolsTokens(tools[..|tools|-1]) + TextTokens(tools[|tools|-1]) + 16
  }

  function InputTokens(input: Input): nat {
    TextTokens(input.system) + 16 + HistoryTokens(input.history) + ToolsTokens(input.tools)
  }

  /** What is paid whatever is said: 16 for the request, 8 for each message, 16 for each tool. */
  lemma FixedCosts(input: Input, m: Message, tool: string)
    ensures InputTokens(Input("", [], [])) == 16
    ensures InputTokens(input.(history := input.history + [m.(blocks := [])])) == InputTokens(input) + 8
    ensures InputTokens(input.(tools := input.tools + [tool])) == InputTokens(input) + 16 + TextTokens(tool)
  {
    var empty := m.(blocks := []);
    assert (input.history + [empty])[..|input.history|] == input.history;
    assert (input.tools + [tool])[..|input.tools|] == input.tools;
    hide TextTokens, BlockTokens;
    assert TextTokens("") == 0 by { NoText(); }
  }

  lemma NoText()
    ensures TextTokens("") == 0
  {}

  method EstimateText(text: string) returns (tokens: nat)
    ensures tokens == TextTokens(text)
  {
    var units: nat := 0;
    for i := 0 to |text|
      invariant units == Units(text[..i])
    {
      assert text[..i+1][..i] == text[..i];
      units := units + if text[i] < 128 as char then 1 else 6;
    }
    assert text[..|text|] == text;
    return (units + 2) / 3;
  }

  method EstimateBlock(b: Block) returns (tokens: nat)
    ensures tokens == BlockTokens(b)
  {
    hide TextTokens;
    tokens := EstimateText(b.text);
    if b.tool.Some? {
      var t := EstimateText(b.tool.value.name + b.tool.value.args);
      tokens := tokens + t + 16;
    }
    if b.result.Some? {
      var t := EstimateText(b.result.value.name + b.result.value.content);
      tokens := tokens + t + 16;
    }
    if b.media.Some? {
      tokens := tokens + 4096;
    }
    if b.continuation.Some? {
      tokens := tokens + |b.continuation.value| / 3;
    }
  }

  method EstimateMessage(m: Message) returns (tokens: nat)
    ensures tokens == MessageTokens(m)
  {
    hide BlockTokens;
    tokens := 8;
    for i := 0 to |m.blocks|
      invariant tokens == 8 + BlocksTokens(m.blocks[..i])
    {
      assert m.blocks[..i+1][..i] == m.blocks[..i];
      var t := EstimateBlock(m.blocks[i]);
      tokens := tokens + t;
    }
    assert m.blocks[..|m.blocks|] == m.blocks;
  }

  method EstimateInput(input: Input) returns (tokens: nat)
    ensures tokens == InputTokens(input)
  {
    hide MessageTokens, TextTokens;
    var history, tools := input.history, input.tools;
    var system := EstimateText(input.system);
    tokens := system + 16;
    for i := 0 to |history|
      invariant tokens == TextTokens(input.system) + 16 + HistoryTokens(history[..i])
    {
      assert history[..i+1][..i] == history[..i];
      var t := EstimateMessage(history[i]);
      tokens := tokens + t;
    }
    assert history[..|history|] == history;
    for i := 0 to |tools|
      invariant tokens == TextTokens(input.system) + 16 + HistoryTokens(history) + ToolsTokens(tools[..i])
    {
      assert tools[..i+1][..i] == tools[..i];
      var t := EstimateText(tools[i]);
      tokens := tokens + t + 16;
    }
    assert tools[..|tools|] == tools;
  }

  /** The estimate of a history is the sum over its parts. */
  lemma {:induction false} HistorySplits(a: seq<Message>, b: seq<Message>)
    ensures HistoryTokens(a + b) == HistoryTokens(a) + HistoryTokens(b)
  {
    hide MessageTokens;
    if b == [] {
      assert a + b == a;
    } else {
      assert (a + b)[..|a + b|-1] == a + b[..|b|-1];
      HistorySplits(a, b[..|b|-1]);
    }
  }

  lemma BareHistory(h: seq<Message>)
    ensures InputTokens(Input("", h, [])) == HistoryTokens(h) + 16
  {}

  /** One message more at the front costs the estimate of that message alone, less the fixed 16. */
  lemma OneMore(h: seq<Message>, i: nat)
    requires i < |h|
    ensures HistoryTokens(h[i..]) == HistoryTokens(h[i+1..]) + InputTokens(Input("", h[i..i+1], [])) - 16
  {
    assert h[i..] == h[i..i+1] + h[i+1..];
    HistorySplits(h[i..i+1], h[i+1..]);
    BareHistory(h[i..i+1]);
  }
}
