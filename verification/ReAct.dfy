/** The loop between model and tools (internal/loops/react/react.go) and the calls it makes
    (internal/tools/registry.go): every batch of tool calls gets its results, however the run ends. */
module ReAct {
  import opened Basics
  import opened Messages
  import opened ModelReply
  import Compact

  // ---------- answered batches ----------

  /** A tool message carries exactly one result; only other messages carry calls. */
  predicate Clean(m: Message) {
    if m.role == Tool then |m.blocks| == 1 && m.blocks[0].result.Some? && m.blocks[0].tool.None?
    else forall b :: b in m.blocks ==> b.result.None?
  }

  predicate ResultOf(m: Message, id: string) {
    m.role == Tool && Clean(m) && m.blocks[0].result.value.id == id
  }

  /** The calls that still owe a result, in order; or a result out of order, or another input too early. */
  datatype Debt = Owing(ids: seq<string>) | Broken

  function Take(d: Debt, m: Message): Debt {
    if d.Broken? || !Clean(m) then Broken
    else if m.role == Tool then if d.ids != [] && ResultOf(m, d.ids[0]) then Owing(d.ids[1..]) else Broken
    else if d.ids == [] then Owing(CallIds(m.blocks)) else Broken
  }

  function Owed(messages: seq<Message>): Debt {
    if messages == [] then Owing([]) else Take(Owed(messages[..|messages|-1]), messages[|messages|-1])
  }

  predicate Answered(messages: seq<Message>) {
    Owed(messages) == Owing([])
  }

  lemma OwedNext(messages: seq<Message>, m: Message)
    ensures Owed(messages + [m]) == Take(Owed(messages), m)
  {
    assert (messages + [m])[..|messages|] == messages;
  }

  lemma {:induction false} PrefixOwes(messages: seq<Message>, i: nat)
    requires Owed(messages).Owing? && i <= |messages|
    ensures Owed(messages[..i]).Owing?
    decreases |messages| - i
  {
    if i == |messages| {
      assert messages[..i] == messages;
    } else {
      PrefixOwes(messages, i + 1);
      assert messages[..i+1] == messages[..i] + [messages[i]];
      OwedNext(messages[..i], messages[i]);
    }
  }

  lemma {:induction false} OwesRest(messages: seq<Message>, i: nat, j: nat)
    requires Owed(messages).Owing? && i + 1 + j <= |messages| && messages[i].role != Tool
    requires j <= |CallIds(messages[i].blocks)|
    ensures Owed(messages[..i+1+j]) == Owing(CallIds(messages[i].blocks)[j..])
  {
    hide Owed;
    hide CallIds;
    PrefixOwes(messages, i + 1 + j);
    assert messages[..i+1+j] == messages[..i+j] + [messages[i+j]];
    OwedNext(messages[..i+j], messages[i+j]);
    if j > 0 { OwesRest(messages, i, j - 1); }
  }

  /** A result is taken only for the first of the calls that owe one, and anything else only for none. */
  lemma TakenAt(messages: seq<Message>, i: nat, j: nat)
    requires Owed(messages).Owing? && i + 1 + j < |messages| && messages[i].role != Tool
    requires j <= |CallIds(messages[i].blocks)|
    ensures var ids := CallIds(messages[i].blocks);
            if j < |ids| then ResultOf(messages[i+1+j], ids[j]) else messages[i+1+j].role != Tool
  {
    hide Owed;
    OwesRest(messages, i, j);
    PrefixOwes(messages, i + 2 + j);
    assert messages[..i+2+j] == messages[..i+1+j] + [messages[i+1+j]];
    OwedNext(messages[..i+1+j], messages[i+1+j]);
  }

  /** What an answered list looks like: a message with k calls is followed by exactly k results with
      their IDs, in order, and only then by anything else. */
  lemma BatchAnswered(messages: seq<Message>, i: nat)
    requires Answered(messages) && i < |messages| && messages[i].role != Tool
    ensures var ids := CallIds(messages[i].blocks);
            && i + |ids| < |messages|
            && (forall j :: 0 <= j < |ids| ==> ResultOf(messages[i+1+j], ids[j]))
            && (i + |ids| + 1 < |messages| ==> messages[i+|ids|+1].role != Tool)
  {
    var ids := CallIds(messages[i].blocks);
    if |messages| - i - 1 <= |ids| {
      OwesRest(messages, i, |messages| - i - 1);
      assert messages[..|messages|] == messages;
    }
    hide *;
    forall j | 0 <= j < |ids|
      ensures ResultOf(messages[i+1+j], ids[j])
    {
      TakenAt(messages, i, j);
    }
    if i + |ids| + 1 < |messages| { TakenAt(messages, i, |ids|); }
  }

  lemma ResultTaken(d: Debt, m: Message)
    requires Take(d, m).Owing? && m.role == Tool
    ensures d.Owing? && d.ids != []
  {}

  lemma NothingOwed()
    ensures Owed([]) == Owing([])
  {}

  lemma ResultNeedsDebt(messages: seq<Message>, i: nat)
    requires Owed(messages).Owing? && i < |messages| && messages[i].role == Tool
    ensures i > 0 && Owed(messages[..i]).Owing? && Owed(messages[..i]).ids != []
  {
    NothingOwed();
    hide *;
    PrefixOwes(messages, i);
    PrefixOwes(messages, i + 1);
    assert messages[..i+1] == messages[..i] + [messages[i]];
    OwedNext(messages[..i], messages[i]);
    ResultTaken(Owed(messages[..i]), messages[i]);
    assert |messages[..i]| == i;
  }

  /** And every result belongs to the batch of the last message before it that is no result. */
  lemma {:induction false} EveryResultIsOwed(messages: seq<Message>, i: nat)
    requires Owed(messages).Owing? && i < |messages| && messages[i].role == Tool
    ensures exists k :: 0 <= k < i && messages[k].role != Tool && i - k <= |CallIds(messages[k].blocks)|
                        && (forall j :: k < j <= i ==> messages[j].role == Tool)
  {
    ResultNeedsDebt(messages, i);
    hide Owed;
    if messages[i-1].role == Tool {
      EveryResultIsOwed(messages, i - 1);
      var k :| 0 <= k < i - 1 && messages[k].role != Tool && i - 1 - k <= |CallIds(messages[k].blocks)|
               && (forall j :: k < j <= i - 1 ==> messages[j].role == Tool);
      OwesRest(messages, k, i - 1 - k);
    } else {
      OwesRest(messages, i - 1, 0);
    }
  }

  // ---------- what compaction sees of it ----------

  function AllBlocks(messages: seq<Message>): seq<Block> {
    if messages == [] then [] else AllBlocks(messages[..|messages|-1]) + messages[|messages|-1].blocks
  }

  lemma {:induction false} PendingCalls(open: set<string>, blocks: seq<Block>)
    requires forall b :: b in blocks ==> b.result.None?
    ensures Compact.PendingIn(open, blocks) == open + set id | id in CallIds(blocks)
  {
    if blocks != [] {
      PendingCalls(open, blocks[..|blocks|-1]);
      assert blocks[|blocks|-1] in blocks;
    }
  }

  lemma {:induction false} PendingIsOwed(messages: seq<Message>)
    requires Owed(messages).Owing?
    ensures Compact.PendingIn({}, AllBlocks(messages)) <= set id | id in Owed(messages).ids
  {
    if messages != [] {
      var n := |messages| - 1;
      var m := messages[n];
      PendingIsOwed(messages[..n]);
      Compact.PendingConcat({}, AllBlocks(messages[..n]), m.blocks);
      var open := Compact.PendingIn({}, AllBlocks(messages[..n]));
      if m.role == Tool {
        assert m.blocks == [m.blocks[0]] && m.blocks[..0] == [];
        assert Compact.PendingIn(open, m.blocks) == open - {m.blocks[0].result.value.id};
      } else {
        PendingCalls(open, m.blocks);
      }
    }
  }

  /** The scan of `compactSelection` finds no open call in an answered history. */
  lemma AnsweredLeavesNothingPending(messages: seq<Message>)
    requires Answered(messages)
    ensures Compact.PendingIn({}, AllBlocks(messages)) == {}
  {
    PendingIsOwed(messages);
  }

  // ---------- the registry ----------

  datatype ToolOutcome = ToolOutcome(content: string, isError: bool, hasFileDelta: bool)

  /** What one tool brings to a call: the source of its schema, its own answers, its hooks' answer. */
  datatype ToolKind = Static | Dynamic | Unregistered | ProvidersFail

  datatype HookAnswer = Allows | Denies(reason: string) | HookError(message: string)

  datatype PermissionMode = ReadOnly | AskForApproval | ApproveForMe | FullAccess | OtherMode

  datatype CallRequest = CallRequest(call: ToolCall, allow: seq<string>, mode: PermissionMode, kind: ToolKind,
                                     validJSON: bool, matchesSchema: bool, hooks: Option<HookAnswer>)

  function ToolError(text: string): ToolOutcome {
    ToolOutcome(text, true, false)
  }

  predicate IsMcp(name: string) {
    "mcp__" <= name
  }

  /** The checks before hooks and the tool itself; each failed one is answered to the model. */
  predicate Refused(r: CallRequest) {
    || r.call.name !in r.allow
    || (IsMcp(r.call.name) && (r.mode == ReadOnly || r.mode == OtherMode))
    || r.kind == Unregistered || r.kind == ProvidersFail
    || !r.validJSON || !r.matchesSchema
  }

  predicate HooksAllow(r: CallRequest) {
    r.hooks.None? || r.hooks.value.Allows?
  }

  /** A history the loop hands out, to be shortened or to be answered by the model; what the host has kept
      of it as its base, and what the ledger has got since. */
  datatype Shown = Shown(history: seq<Message>, base: seq<Message>, later: seq<Message>, toModel: bool,
                         replacement: Option<seq<Message>>)

  /** A tool that has run. */
  datatype Ran = Ran(call: ToolCall, outcome: ToolOutcome, error: Option<string>)

  /** A user's or another session's message, which carries no calls. */
  predicate IsInput(m: Message) {
    m.role != Tool && Clean(m) && CallIds(m.blocks) == []
  }

  function Summary(text: string): Message {
    Message(None, Assistant, [Block("summary", text, None, None, None, None)], false, "", "", "", nothingCarried)
  }

  lemma InputKeeps(messages: seq<Message>, m: Message)
    requires Answered(messages) && IsInput(m)
    ensures Answered(messages + [m])
  {
    OwedNext(messages, m);
  }

  lemma SummaryKeeps(messages: seq<Message>, text: string)
    requires Answered(messages)
    ensures Answered(messages + [Summary(text)])
  {
    SummaryIsInput(text);
    InputKeeps(messages, Summary(text));
  }

  lemma SummaryIsInput(text: string)
    ensures IsInput(Summary(text))
  {
    assert Summary(text).blocks[..0] == [];
  }

  /** The loop's own history is its base, with all the ledger has got since `from`; both owe the same. */
  predicate InStep(ledger: seq<Message>, base: seq<Message>, from: nat, history: seq<Message>, d: Debt) {
    from <= |ledger| && history == base + ledger[from..] && Owed(ledger) == d && Owed(ledger[from..]) == d
  }

  // ---------- which tools have run ----------

  function CallsAsked(messages: seq<Message>): seq<ToolCall> {
    if messages == [] then [] else CallsAsked(messages[..|messages|-1]) + CallsIn(messages[|messages|-1].blocks)
  }

  function Tools(ran: seq<Ran>): seq<ToolCall> {
    if ran == [] then [] else Tools(ran[..|ran|-1]) + [ran[|ran|-1].call]
  }

  /** Each of `some` at its own place in `all`, in order. */
  predicate Within(some: seq<ToolCall>, all: seq<ToolCall>) {
    || some == []
    || (all != [] && (|| (some[|some|-1] == all[|all|-1] && Within(some[..|some|-1], all[..|all|-1]))
                      || Within(some, all[..|all|-1])))
  }

  lemma AskedNext(messages: seq<Message>, m: Message)
    ensures CallsAsked(messages + [m]) == CallsAsked(messages) + CallsIn(m.blocks)
  {
    assert (messages + [m])[..|messages|] == messages;
  }

  lemma ToolsNext(ran: seq<Ran>, x: Ran)
    ensures Tools(ran + [x]) == Tools(ran) + [x.call]
  {
    assert (ran + [x])[..|ran|] == ran;
  }

  lemma WithinNext(some: seq<ToolCall>, all: seq<ToolCall>, call: ToolCall)
    requires Within(some, all)
    ensures Within(some, all + [call]) && Within(some + [call], all + [call])
  {
    assert (all + [call])[..|all|] == all && (some + [call])[..|some|] == some;
  }

  lemma {:induction false} WithinMore(some: seq<ToolCall>, all: seq<ToolCall>, more: seq<ToolCall>)
    requires Within(some, all)
    ensures Within(some, all + more)
  {
    hide *;
    if more == [] {
      assert all + more == all;
    } else {
      var n := |more| - 1;
      WithinMore(some, all, more[..n]);
      WithinNext(some, all + more[..n], more[n]);
      assert all + more == all + more[..n] + [more[n]];
    }
  }

  lemma NoCallsIn(m: Message)
    requires CallIds(m.blocks) == []
    ensures CallsIn(m.blocks) == []
  {
    IdsOfCalls(m.blocks);
    IdsAt(CallsIn(m.blocks), 0);
  }

  lemma AskedSame(messages: seq<Message>, m: Message)
    requires CallIds(m.blocks) == []
    ensures CallsAsked(messages + [m]) == CallsAsked(messages)
  {
    NoCallsIn(m);
    AskedNext(messages, m);
    assert CallsAsked(messages) + [] == CallsAsked(messages);
  }

  lemma {:induction false} AskedSameBy(messages: seq<Message>, more: seq<Message>)
    requires forall m :: m in more ==> IsInput(m)
    ensures CallsAsked(messages + more) == CallsAsked(messages)
  {
    if more == [] {
      assert messages + more == messages;
    } else {
      var n := |more| - 1;
      AskedSameBy(messages, more[..n]);
      assert more[n] in more;
      AskedSame(messages + more[..n], more[n]);
      assert messages + more == messages + more[..n] + [more[n]];
    }
  }

  lemma ResultAsksNothing(m: Message, id: string)
    requires ResultOf(m, id)
    ensures CallIds(m.blocks) == []
  {
    assert m.blocks == [m.blocks[0]] && m.blocks[..0] == [];
  }

  /** The tools that have run were called by the model, each call is run at most once, and in order. */
  ghost predicate RunInOrder(host: Host)
    reads host
  {
    Within(Tools(host.ran), CallsAsked(host.ledger))
  }

  // ---------- what surrounds the loop ----------

  predicate BadCall(c: Chunk) {
    c.CallChunk? && (c.call.id == "" || c.call.name == "")
  }

  predicate Disturbed(chunks: seq<Chunk>) {
    exists c :: c in chunks && (c.ErrorChunk? || BadCall(c))
  }

  /** Everything outside the loop: the run's part of the ledger, cancellation, and the choices of the
      model, the tools and the user. What those do is arbitrary; cancellation never ends. */
  class Host {
    var ledger: seq<Message>
    var canceled: bool
    var emitFailed: bool
    ghost var shown: seq<Shown>
    ghost var base: seq<Message>
    ghost var from: nat
    ghost var streamed: seq<Chunk>
    ghost var resolved: seq<CallRequest>
    ghost var ran: seq<Ran>
    ghost var taken: seq<Message>
    ghost var trouble: bool

    constructor (history: seq<Message>)
      ensures ledger == [] && !emitFailed && shown == [] && base == history && from == 0
      ensures streamed == [] && resolved == [] && ran == [] && taken == [] && !trouble
    {
      ledger, canceled, emitFailed := [], *, false;
      shown, base, from := [], history, 0;
      streamed, resolved, ran, taken, trouble := [], [], [], [], false;
    }

    /** `ctx.Err()`: once canceled, always canceled. */
    method Done() returns (done: bool)
      modifies this`canceled
      ensures done == canceled && (old(canceled) ==> canceled)
    {
      if !canceled { canceled := *; }
      done := canceled;
    }

    /** `Emit` of a message; a failure may come before or after the message is in the ledger. */
    method EmitMessage(m: Message) returns (ok: bool)
      modifies this`ledger, this`emitFailed, this`canceled
      ensures ledger == old(ledger) || ledger == old(ledger) + [m]
      ensures ok ==> ledger == old(ledger) + [m] && emitFailed == old(emitFailed)
      ensures !ok ==> emitFailed
      ensures old(canceled) ==> canceled
    {
      var _ := Done();
      var appended: bool := *;
      ok := *;
      if ok || appended { ledger := ledger + [m]; }
      if !ok { emitFailed := true; }
    }

    /** `Emit` of an event that is no message. */
    method EmitEvent() returns (ok: bool)
      modifies this`emitFailed, this`canceled
      ensures emitFailed == (old(emitFailed) || !ok)
      ensures old(canceled) ==> canceled
    {
      var _ := Done();
      ok := *;
      if !ok { emitFailed := true; }
    }

    /** What the registry knows about a call at the moment; tools come and go. */
    method Resolve(call: ToolCall) returns (r: CallRequest)
      modifies this`resolved
      ensures r.call == call && resolved == old(resolved) + [r]
    {
      r := *;
      r := r.(call := call);
      resolved := resolved + [r];
    }

    /** The tool itself runs for as long as it likes. */
    method RunTool(call: ToolCall) returns (outcome: ToolOutcome, error: Option<string>)
      modifies this`canceled, this`ran
      ensures old(canceled) ==> canceled
      ensures ran == old(ran) + [Ran(call, outcome, error)]
    {
      var _ := Done();
      outcome, error := *, *;
      ran := ran + [Ran(call, outcome, error)];
    }

    /** Shows the model a history and gives its answer, piece by piece. */
    method Stream(history: seq<Message>) returns (r: Result<seq<Chunk>, Failure>)
      requires InStep(ledger, base, from, history, Owing([]))
      modifies this`canceled, this`shown, this`streamed, this`trouble
      ensures old(canceled) ==> canceled
      ensures shown == old(shown) + [Shown(history, base, ledger[from..], true, None)]
      ensures streamed == if r.Ok? then r.value else []
      ensures trouble == (r.Err? || Disturbed(streamed))
    {
      var _ := Done();
      r := *;
      shown := shown + [Shown(history, base, ledger[from..], true, None)];
      streamed := if r.Ok? then r.value else [];
      trouble := r.Err? || Disturbed(streamed);
    }

    /** A failure may come before or after the summary is in the ledger. */
    method Compact(history: seq<Message>) returns (r: Result<Option<seq<Message>>, Failure>)
      requires InStep(ledger, base, from, history, Owing([]))
      modifies this`ledger, this`canceled, this`shown, this`base, this`from, this`trouble
      ensures old(canceled) ==> canceled
      ensures shown == old(shown) + [Shown(history, old(base), old(ledger)[old(from)..], false, if r.Ok? then r.value else None)]
      ensures r == Ok(None) ==> ledger == old(ledger) && base == old(base) && from == old(from)
      ensures r.Ok? && r.value.Some? ==> base == r.value.value && InStep(ledger, base, from, r.value.value, Owing([]))
      ensures r.Err? ==> Answered(ledger) && base == old(base) && from == old(from)
      ensures CallsAsked(ledger) == CallsAsked(old(ledger))
      ensures trouble == (old(trouble) || r.Err?)
    {
      var _ := Done();
      r := *;
      var committed: bool := *;
      shown := shown + [Shown(history, base, ledger[from..], false, if r.Ok? then r.value else None)];
      trouble := trouble || r.Err?;
      if (r.Ok? && r.value.Some?) || (r.Err? && committed) {
        var text: string := *;
        SummaryKeeps(ledger, text);
        SummaryIsInput(text);
        AskedSame(ledger, Summary(text));
        ledger := ledger + [Summary(text)];
      }
      if r.Ok? && r.value.Some? {
        base, from := r.value.value, |ledger|;
        assert base + ledger[from..] == base;
      }
    }

    /** Whatever the user and other sessions have sent by now, committed to the ledger; on a failure
        perhaps only some of it. */
    method Checkpoint() returns (steers: seq<Message>, failure: Option<Failure>)
      modifies this`ledger, this`canceled, this`taken, this`trouble
      ensures old(canceled) ==> canceled
      ensures ledger == old(ledger) + steers && forall m :: m in steers ==> IsInput(m)
      ensures taken == steers && trouble == failure.Some?
    {
      var _ := Done();
      var sent: seq<Message>, n: nat := *, *;
      failure := *;
      steers := [];
      for i := 0 to n
        invariant forall m :: m in steers ==> IsInput(m)
      {
        if i < |sent| && IsInput(sent[i]) { steers := steers + [sent[i]]; }
      }
      ledger := ledger + steers;
      taken, trouble := steers, failure.Some?;
    }
  }

  // ---------- Registry.Call ----------

  /** Only the context's own error leaves a call as an error; all else becomes a result for the model.
      A file change that a tool made before a cancellation is handed on. */
  method Call(host: Host, r: CallRequest) returns (result: Result<ToolOutcome, Failure>)
    modifies host`canceled, host`ran
    ensures old(host.canceled) ==> host.canceled && host.ran == old(host.ran) && result.Err?
    ensures result.Err? ==> result.error == Canceled && host.canceled
    ensures Refused(r) || !HooksAllow(r) ==> host.ran == old(host.ran)
    ensures host.ran == old(host.ran) && result.Ok? ==> (Refused(r) || !HooksAllow(r)) && result.value.isError
    ensures host.ran != old(host.ran) ==>
              exists outcome, error :: host.ran == old(host.ran) + [Ran(r.call, outcome, error)]
                                       && result == Told(outcome, error, host.canceled)
                                       && (host.canceled && outcome.hasFileDelta ==> result == Ok(outcome))
                                       && (!host.canceled ==> result.Ok? && (error.None? ==> result.value == outcome))
                                       && (!host.canceled && error.Some? ==> result.value.isError)
  {
    var done := host.Done();
    if done { return Err(Canceled); }
    if r.call.name !in r.allow { return Ok(ToolError("not allowed")); }
    if IsMcp(r.call.name) {
      if r.mode == ReadOnly { return Ok(ToolError("read-only")); }
      if r.mode != AskForApproval && r.mode != ApproveForMe && r.mode != FullAccess {
        return Ok(ToolError("no valid mode"));
      }
    }
    if r.kind == ProvidersFail { return Ok(ToolError("provider")); }
    if r.kind == Unregistered { return Ok(ToolError("not registered")); }
    if !r.validJSON { return Ok(ToolError("not valid JSON")); }
    if !r.matchesSchema { return Ok(ToolError("schema")); }
    if r.hooks.Some? {
      done := host.Done();
      match r.hooks.value {
        case HookError(text) => return if done then Err(Canceled) else Ok(ToolError(text));
        case Denies(reason) => return Ok(ToolError(reason));
        case Allows =>
      }
    }
    done := host.Done();
    if done { return Err(Canceled); }
    var outcome, error := host.RunTool(r.call);
    done := host.Done();
    if done {
      result := if outcome.hasFileDelta then Ok(outcome) else Err(Canceled);
    } else if error.Some? {
      result := Ok(ToolError(error.value));
    } else {
      result := Ok(outcome);
    }
  }

  /** What becomes of a tool's own answer: a cancellation keeps it only for the file change in it. */
  function Told(outcome: ToolOutcome, error: Option<string>, canceled: bool): Result<ToolOutcome, Failure> {
    if canceled then if outcome.hasFileDelta then Ok(outcome) else Err(Canceled)
    else if error.Some? then Ok(ToolError(error.value))
    else Ok(outcome)
  }

  // ---------- one model request ----------

  datatype Reply = Answer(message: Message, calls: seq<ToolCall>) | Nothing | Failed(failure: Failure)

  function AssistantMessage(blocks: seq<Block>, incomplete: bool): Message {
    Message(None, Assistant, blocks, incomplete, "", "", "", nothingCarried)
  }

  lemma OutgoingCarriesNoResult(blocks: seq<Block>)
    requires Outgoing(blocks)
    ensures forall b :: b in blocks ==> b.result.None?
  {
    forall b | b in blocks
      ensures b.result.None?
    {
      assert OutgoingBlock(b);
    }
  }

  /** A finished answer with all that its stream has brought. */
  ghost predicate SaysStreamed(m: Message, chunks: seq<Chunk>) {
    && m == AssistantMessage(m.blocks, false) && Outgoing(m.blocks)
    && Uttered(m.blocks) == Streamed(chunks) && Streamed(chunks) != []
  }

  /** What is kept of an answer that broke off after so many pieces: the words, as an incomplete message. */
  ghost predicate Kept(before: seq<Message>, ledger: seq<Message>, chunks: seq<Chunk>, n: nat)
    requires n <= |chunks|
  {
    var said := Worded(Streamed(chunks[..n]));
    if said == [] then ledger == before
    else
      && |ledger| == |before| + 1 && ledger[..|before|] == before
      && var m := ledger[|before|];
         m.role == Assistant && m.incomplete && Outgoing(m.blocks) && Uttered(m.blocks) == said
  }

  /** A request that failed without a failing `Emit`: no stream came, or a nameless call, or it broke off. */
  ghost predicate BrokenOff(before: seq<Message>, host: Host)
    reads host
  {
    || (host.ledger == before && host.trouble && (host.streamed == [] || exists c :: c in host.streamed && BadCall(c)))
    || (exists n :: 0 <= n <= |host.streamed| && Kept(before, host.ledger, host.streamed, n)
                    && (host.canceled || (n < |host.streamed| && host.streamed[n].ErrorChunk?)))
  }

  method FailRequest(host: Host, blocks: seq<Block>, cause: Failure, ghost n: nat) returns (failure: Failure)
    requires Outgoing(blocks) && Answered(host.ledger) && n <= |host.streamed|
    requires Uttered(blocks) == Streamed(host.streamed[..n])
    modifies host`ledger, host`emitFailed, host`canceled
    ensures Answered(host.ledger) && (old(host.canceled) ==> host.canceled)
    ensures failure == cause || (failure == EmitFailed && host.emitFailed)
    ensures blocks == [] ==> host.ledger == old(host.ledger) && host.emitFailed == old(host.emitFailed)
    ensures old(host.emitFailed) ==> host.emitFailed
    ensures !host.emitFailed ==> Kept(old(host.ledger), host.ledger, host.streamed, n)
    ensures CallsAsked(host.ledger) == CallsAsked(old(host.ledger))
  {
    SpokenSays(blocks);
    if Spoken(blocks) == [] { return cause; }
    var incomplete := AssistantMessage(Spoken(blocks), true);
    IdsOfCalls(Spoken(blocks));
    OutgoingCarriesNoResult(Spoken(blocks));
    InputKeeps(host.ledger, incomplete);
    AskedSame(host.ledger, incomplete);
    hide Owed, Take, CallsAsked, CallIds, CallsIn, Uttered, Worded, Streamed, Spoken, Outgoing;
    var ok := host.EmitMessage(incomplete);
    failure := if ok then cause else EmitFailed;
  }

  /** The blocks and calls after so much of the stream. */
  ghost predicate SaidSoFar(blocks: seq<Block>, calls: seq<ToolCall>, chunks: seq<Chunk>) {
    && Outgoing(blocks) && CallsIn(blocks) == calls
    && Uttered(blocks) == Streamed(chunks) && (blocks == [] <==> Streamed(chunks) == [])
  }

  lemma NothingSaid()
    ensures SaidSoFar([], [], [])
  {}

  lemma StreamedNext(chunks: seq<Chunk>, k: nat)
    requires k < |chunks|
    ensures Streamed(chunks[..k+1]) == Streamed(chunks[..k]) + OfChunk(chunks[k])
  {
    assert chunks[..k+1][..k] == chunks[..k];
  }

  lemma TextSaid(blocks: seq<Block>, calls: seq<ToolCall>, chunks: seq<Chunk>, k: nat, kind: string, text: string)
    requires k < |chunks| && SaidSoFar(blocks, calls, chunks[..k]) && kind in {"text", "reasoning"}
    requires chunks[k] == if kind == "text" then TextChunk(text) else ReasoningChunk(text)
    ensures SaidSoFar(AppendText(blocks, kind, text), calls, chunks[..k+1])
  {
    StreamedNext(chunks, k);
    TextKeeps(blocks, kind, text);
    assert |OfChunk(chunks[k])| == |text|;
    hide Letters, Uttered, CallsIn, Outgoing, Streamed;
  }

  lemma ContinuationSaid(blocks: seq<Block>, calls: seq<ToolCall>, chunks: seq<Chunk>, k: nat, token: string)
    requires k < |chunks| && SaidSoFar(blocks, calls, chunks[..k]) && chunks[k] == ContinuationChunk(token)
    ensures SaidSoFar(AppendContinuation(blocks, token), calls, chunks[..k+1])
  {
    StreamedNext(chunks, k);
    ContinuationKeeps(blocks, token);
    hide Letters, Uttered, CallsIn, Outgoing, Streamed;
  }

  lemma CallSaid(blocks: seq<Block>, calls: seq<ToolCall>, chunks: seq<Chunk>, k: nat)
    requires k < |chunks| && SaidSoFar(blocks, calls, chunks[..k]) && chunks[k].CallChunk?
    ensures SaidSoFar(blocks + [CallBlock(chunks[k].call, chunks[k].continuation)], calls + [chunks[k].call], chunks[..k+1])
  {
    StreamedNext(chunks, k);
    CallKeeps(blocks, chunks[k].call, chunks[k].continuation);
    hide Letters, Uttered, CallsIn, Outgoing, Streamed;
  }

  lemma FinishSaid(blocks: seq<Block>, calls: seq<ToolCall>, chunks: seq<Chunk>, k: nat)
    requires k < |chunks| && SaidSoFar(blocks, calls, chunks[..k]) && chunks[k].FinishChunk?
    ensures SaidSoFar(blocks, calls, chunks[..k+1])
  {
    StreamedNext(chunks, k);
    assert Streamed(chunks[..k]) + [] == Streamed(chunks[..k]);
  }

  /** A reply says what the stream has brought, and its calls are those of its message, in order. What a
      broken-off request has said is kept without its calls; a request that overflowed the context has
      left nothing behind. */
  method Request(host: Host, history: seq<Message>) returns (reply: Reply)
    requires InStep(host.ledger, host.base, host.from, history, Owing([])) && !host.emitFailed
    modifies host`ledger, host`emitFailed, host`canceled, host`shown, host`streamed, host`trouble
    ensures Answered(host.ledger) && (old(host.canceled) ==> host.canceled)
    ensures host.shown == old(host.shown) + [Shown(history, host.base, old(host.ledger)[host.from..], true, None)]
    ensures reply.Answer? ==> SaysStreamed(reply.message, host.streamed) && CallsIn(reply.message.blocks) == reply.calls
    ensures reply.Nothing? ==> Streamed(host.streamed) == []
    ensures !reply.Failed? || reply.failure == ContextWindow ==>
              host.ledger == old(host.ledger) && !host.emitFailed
    ensures reply.Failed? && !host.emitFailed ==> BrokenOff(old(host.ledger), host)
    ensures reply.Failed? ==> host.canceled || host.emitFailed || host.trouble
    ensures CallsAsked(host.ledger) == CallsAsked(old(host.ledger))
  {
    var stream := host.Stream(history);
    if stream.Err? { return Failed(if stream.error == EmitFailed then RequestFailed else stream.error); }
    reply := Receive(host, stream.value);
  }

  /** The part of `request` that reads the stream. */
  method Receive(host: Host, stream: seq<Chunk>) returns (reply: Reply)
    requires Answered(host.ledger) && !host.emitFailed && stream == host.streamed && host.trouble == Disturbed(stream)
    modifies host`ledger, host`emitFailed, host`canceled
    ensures Answered(host.ledger) && (old(host.canceled) ==> host.canceled)
    ensures reply.Answer? ==> SaysStreamed(reply.message, host.streamed) && CallsIn(reply.message.blocks) == reply.calls
    ensures reply.Nothing? ==> Streamed(host.streamed) == []
    ensures !reply.Failed? || reply.failure == ContextWindow ==>
              host.ledger == old(host.ledger) && !host.emitFailed
    ensures reply.Failed? && !host.emitFailed ==> BrokenOff(old(host.ledger), host)
    ensures reply.Failed? ==> host.canceled || host.emitFailed || host.trouble
    ensures CallsAsked(host.ledger) == CallsAsked(old(host.ledger))
  {
    hide Owed, CallsAsked, CallsIn, Uttered, Streamed, Outgoing, Kept, AppendText, AppendContinuation;
    var ok := host.EmitEvent();
    if !ok { return Failed(EmitFailed); }
    var blocks: seq<Block>, calls: seq<ToolCall> := [], [];
    var failure: Failure;
    var done: bool;
    NothingSaid();
    for k := 0 to |stream|
      modifies host`ledger, host`emitFailed, host`canceled
      invariant SaidSoFar(blocks, calls, stream[..k])
      invariant host.ledger == old(host.ledger) && !host.emitFailed && (old(host.canceled) ==> host.canceled)
    {
      done := host.Done();
      var notice: bool := *;
      if done && notice {
        failure := FailRequest(host, blocks, Canceled, k);
        return Failed(failure);
      }
      match stream[k] {
        case ReasoningChunk(text) =>
          TextSaid(blocks, calls, stream, k, "reasoning", text);
          blocks := AppendText(blocks, "reasoning", text);
          ok := host.EmitEvent();
          if !ok { return Failed(EmitFailed); }
        case TextChunk(text) =>
          TextSaid(blocks, calls, stream, k, "text", text);
          blocks := AppendText(blocks, "text", text);
          ok := host.EmitEvent();
          if !ok { return Failed(EmitFailed); }
        case ContinuationChunk(continuation) =>
          ContinuationSaid(blocks, calls, stream, k, continuation);
          blocks := AppendContinuation(blocks, continuation);
        case CallChunk(call, continuation) =>
          if call.id == "" || call.name == "" {
            assert BadCall(stream[k]);
            return Failed(RequestFailed);
          }
          CallSaid(blocks, calls, stream, k);
          calls := calls + [call];
          blocks := blocks + [CallBlock(call, continuation)];
        case FinishChunk =>
          FinishSaid(blocks, calls, stream, k);
        case ErrorChunk(cause) =>
          failure := FailRequest(host, blocks, ErrorCause(cause, blocks), k);
          return Failed(failure);
      }
    }
    assert stream[..|stream|] == stream;
    done := host.Done();
    if done {
      failure := FailRequest(host, blocks, Canceled, |stream|);
      return Failed(failure);
    }
    if blocks == [] && calls == [] { return Nothing; }
    ok := host.EmitEvent();
    if !ok { return Failed(EmitFailed); }
    return Answer(AssistantMessage(blocks, false), calls);
  }

  /** Only a request that has said nothing yet may be repeated with a shorter history. */
  function ErrorCause(cause: Option<Failure>, blocks: seq<Block>): Failure {
    if cause.None? || (cause.value == ContextWindow && blocks != []) then RequestFailed else cause.value
  }

  // ---------- tool batches ----------

  function ResultMessage(call: ToolCall, content: string, isError: bool): Message {
    Message(None, Tool, [Block("tool-result", "", None, Some(ToolResult(call.id, call.name, content, isError)), None, None)],
            false, "", "", "", nothingCarried)
  }

  function ErrorText(content: string): string {
    if "error: " <= content then content else "error: " + content
  }

  /** The result that the model gets. */
  predicate Reports(m: Message, call: ToolCall, content: string, isError: bool) {
    ResultOf(m, call.id) && m.blocks[0].result.value == ToolResult(call.id, call.name, content, isError)
  }

  predicate Conveys(m: Message, call: ToolCall, result: Result<ToolOutcome, Failure>) {
    match result
    case Err(_) => Reports(m, call, "canceled", true)
    case Ok(outcome) =>
      if outcome.isError then
        (Reports(m, call, outcome.content, true) && "error: " <= outcome.content) || Reports(m, call, "error: " + outcome.content, true)
      else Reports(m, call, outcome.content, false)
  }

  /** What `execute` has done for one call: no tool has run, for a reason, or this call's tool once. */
  ghost predicate Handled(host: Host, call: ToolCall, before: seq<Ran>, m: Message)
    reads host
  {
    && host.resolved != []
    && var r := host.resolved[|host.resolved|-1];
       && r.call == call
       && (|| (host.ran == before && host.canceled && Reports(m, call, "canceled", true))
           || (host.ran == before && (Refused(r) || !HooksAllow(r)) && exists text :: Reports(m, call, text, true) && "error: " <= text)
           || (!Refused(r) && HooksAllow(r) && HasRun(host, call, before, m)))
  }

  ghost predicate HasRun(host: Host, call: ToolCall, before: seq<Ran>, m: Message)
    reads host
  {
    exists outcome, error, halted :: host.ran == before + [Ran(call, outcome, error)] && (halted ==> host.canceled)
                                     && Conveys(m, call, Told(outcome, error, halted))
  }

  lemma Conveyed(call: ToolCall, result: Result<ToolOutcome, Failure>, content: string)
    requires content == match result
                        case Err(_) => "canceled"
                        case Ok(outcome) => if outcome.isError then ErrorText(outcome.content) else outcome.content
    ensures Conveys(ResultMessage(call, content, result.Err? || result.value.isError), call, result)
  {}

  /** Every executed call leaves one result with its ID, be it a success, a failure or a cancellation;
      the only failures are a cancellation, with the result in place, and a failed `Emit`. A tool has run
      for it unless the call was refused or the run canceled, and then the result conveys the tool's answer. */
  method Execute(host: Host, call: ToolCall) returns (message: Option<Message>, failure: Option<Failure>)
    requires !host.emitFailed
    modifies host`ledger, host`emitFailed, host`canceled, host`resolved, host`ran
    ensures old(host.canceled) ==> host.canceled
    ensures !host.emitFailed ==> message.Some? && ResultOf(message.value, call.id)
                                 && host.ledger == old(host.ledger) + [message.value]
    ensures host.emitFailed ==> message.None? && failure.Some?
    ensures host.ledger == old(host.ledger)
            || (|host.ledger| == |old(host.ledger)| + 1 && host.ledger[..|old(host.ledger)|] == old(host.ledger)
                && ResultOf(host.ledger[|old(host.ledger)|], call.id))
    ensures !host.emitFailed && failure.Some? ==> failure.value == Canceled && host.canceled
    ensures !host.emitFailed ==>
              |host.resolved| == |old(host.resolved)| + 1 && host.resolved[..|old(host.resolved)|] == old(host.resolved)
              && host.resolved[|old(host.resolved)|].call == call
    ensures !host.emitFailed ==> Handled(host, call, old(host.ran), message.value)
    ensures !host.emitFailed ==> (failure.Some? <==> Reports(message.value, call, "canceled", true))
    ensures host.ran == old(host.ran) || (exists outcome, error :: host.ran == old(host.ran) + [Ran(call, outcome, error)])
  {
    var ok := host.EmitEvent();
    if !ok { return None, Some(EmitFailed); }
    var request := host.Resolve(call);
    var result := Call(host, request);
    ghost var halted, ran := host.canceled, host.ran;
    var content := match result
                   case Err(_) => "canceled"
                   case Ok(outcome) => if outcome.isError then ErrorText(outcome.content) else outcome.content;
    var m := ResultMessage(call, content, result.Err? || result.value.isError);
    Conveyed(call, result, content);
    assert host.ran == old(host.ran) && result.Ok? ==> Reports(m, call, content, true) && "error: " <= content;
    assert host.ran != old(host.ran) ==> HasRun(host, call, old(host.ran), m);
    assert Handled(host, call, old(host.ran), m);
    hide Refused, HooksAllow, Reports, Conveys, Told;
    ok := host.EmitMessage(m);
    if !ok { return None, Some(EmitFailed); }
    ok := host.EmitEvent();
    if !ok { return None, Some(EmitFailed); }
    return Some(m), if result.Err? then Some(Canceled) else None;
  }

  /** From `from` on, the ledger has told the model of the first `n` calls that they were not executed. */
  ghost predicate NotExecuted(ledger: seq<Message>, from: nat, calls: seq<ToolCall>, n: nat)
    requires n <= |calls|
  {
    |ledger| == from + n && forall k :: 0 <= k < n ==> Reports(ledger[from+k], calls[k], "not executed: stopped", true)
  }

  /** Answers the calls that will not be executed. */
  method FinishUnexecuted(host: Host, calls: seq<ToolCall>, cause: Failure) returns (failure: Failure)
    requires !host.emitFailed && Owed(host.ledger) == Owing(Ids(calls))
    modifies host`ledger, host`emitFailed, host`canceled
    ensures old(host.canceled) ==> host.canceled
    ensures Owed(host.ledger).Owing? && (!host.emitFailed ==> Answered(host.ledger) && failure == cause)
    ensures !host.emitFailed ==> NotExecuted(host.ledger, |old(host.ledger)|, calls, |calls|)
    ensures CallsAsked(host.ledger) == CallsAsked(old(host.ledger))
  {
    hide CallsAsked, Owed, Take, Ids;
    IdsAt(calls, 0);
    for k := 0 to |calls|
      invariant !host.emitFailed && Owed(host.ledger) == Owing(Ids(calls)[k..]) && |Ids(calls)| == |calls|
      invariant old(host.canceled) ==> host.canceled
      invariant NotExecuted(host.ledger, |old(host.ledger)|, calls, k)
      invariant CallsAsked(host.ledger) == CallsAsked(old(host.ledger))
    {
      var m := ResultMessage(calls[k], "not executed: stopped", true);
      ResultAsksNothing(m, calls[k].id);
      AskedSame(host.ledger, m);
      IdsAt(calls, k);
      OwedNext(host.ledger, m);
      TakesFirst(Ids(calls)[k..], m);
      assert Ids(calls)[k..][1..] == Ids(calls)[k+1..];
      var ok := host.EmitMessage(m);
      if !ok { return EmitFailed; }
      ok := host.EmitEvent();
      if !ok { return EmitFailed; }
    }
    failure := cause;
  }

  lemma IdsFrom(calls: seq<ToolCall>, i: nat)
    requires i <= |calls|
    ensures |Ids(calls)| == |calls| && Ids(calls[i..]) == Ids(calls)[i..]
  {
    IdsAt(calls, i);
    IdsAt(calls[i..], 0);
    forall j | 0 <= j < |calls| - i
      ensures Ids(calls[i..])[j] == Ids(calls)[i+j]
    {
      IdsAt(calls[i..], j);
      IdsAt(calls, i + j);
    }
  }

  /** One more message in the ledger and in the loop's history. */
  lemma InStepNext(ledger: seq<Message>, base: seq<Message>, from: nat, history: seq<Message>, d: Debt, m: Message)
    requires InStep(ledger, base, from, history, d)
    ensures InStep(ledger + [m], base, from, history + [m], Take(d, m))
  {
    OwedNext(ledger, m);
    OwedNext(ledger[from..], m);
    assert (ledger + [m])[from..] == ledger[from..] + [m];
    assert base + (ledger[from..] + [m]) == base + ledger[from..] + [m];
  }

  lemma TakesInput(m: Message)
    requires IsInput(m)
    ensures Take(Owing([]), m) == Owing([])
  {}

  lemma {:induction false} InStepInputs(ledger: seq<Message>, base: seq<Message>, from: nat, history: seq<Message>, more: seq<Message>)
    requires InStep(ledger, base, from, history, Owing([])) && forall m :: m in more ==> IsInput(m)
    ensures InStep(ledger + more, base, from, history + more, Owing([]))
  {
    hide *;
    if more == [] {
      assert ledger + more == ledger && history + more == history;
    } else {
      var n := |more| - 1;
      assert more[n] in more;
      InStepInputs(ledger, base, from, history, more[..n]);
      TakesInput(more[n]);
      InStepNext(ledger + more[..n], base, from, history + more[..n], Owing([]), more[n]);
      assert ledger + more == ledger + more[..n] + [more[n]] && history + more == history + more[..n] + [more[n]];
      assert InStep(ledger + more, base, from, history + more, Owing([]));
    }
  }

  lemma TakesFirst(ids: seq<string>, m: Message)
    requires ids != [] && ResultOf(m, ids[0])
    ensures Take(Owing(ids), m) == Owing(ids[1..])
  {}

  /** The calls of one answer, until they are done or the run is canceled. */
  method Batch(host: Host, history: seq<Message>, calls: seq<ToolCall>, ghost before: seq<ToolCall>)
    returns (later: seq<Message>, failure: Option<Failure>)
    requires !host.emitFailed && InStep(host.ledger, host.base, host.from, history, Owing(Ids(calls)))
    requires Within(Tools(host.ran), before)
    modifies host`ledger, host`emitFailed, host`canceled, host`resolved, host`ran
    ensures Owed(host.ledger).Owing? && (!host.emitFailed ==> Answered(host.ledger))
    ensures failure.None? ==> !host.emitFailed && InStep(host.ledger, host.base, host.from, later, Owing([]))
    ensures old(host.canceled) ==> host.canceled
    ensures Within(Tools(host.ran), before + calls) && CallsAsked(host.ledger) == CallsAsked(old(host.ledger))
    ensures failure.Some? ==> host.canceled || host.emitFailed
    ensures failure.None? ==> old(host.ledger) <= host.ledger && AllHandled(host.ledger, |old(host.ledger)|, host.resolved, |old(host.resolved)|, calls, |calls|)
  {
    hide Owed, Take, Ids, CallsAsked, Tools, Within, Handled, Reports;
    later := history;
    assert before + calls[..0] == before;
    IdsFrom(calls, 0);
    assert Ids(calls)[0..] == Ids(calls);
    var cause: Failure;
    for index := 0 to |calls|
      invariant !host.emitFailed && |Ids(calls)| == |calls|
      invariant InStep(host.ledger, host.base, host.from, later, Owing(Ids(calls)[index..]))
      invariant old(host.canceled) ==> host.canceled
      invariant Within(Tools(host.ran), before + calls[..index]) && CallsAsked(host.ledger) == CallsAsked(old(host.ledger))
      invariant old(host.ledger) <= host.ledger
      invariant AllHandled(host.ledger, |old(host.ledger)|, host.resolved, |old(host.resolved)|, calls, index)
    {
      IdsFrom(calls, index);
      WithinAll(Tools(host.ran), before, calls, index);
      var done := host.Done();
      if done {
        cause := FinishUnexecuted(host, calls[index..], Canceled);
        return later, Some(cause);
      }
      ghost var ledger, ran := host.ledger, host.ran;
      var message, failed := Execute(host, calls[index]);
      RanNext(ran, host.ran, before, calls, index);
      if |host.ledger| == |ledger| + 1 {
        assert host.ledger == ledger + [host.ledger[|ledger|]];
        OneMoreResult(ledger, host.base, host.from, later, calls, index, host.ledger[|ledger|]);
      }
      if failed.Some? {
        done := host.Done();
        if message.Some? && done {
          cause := FinishUnexecuted(host, calls[index+1..], failed.value);
          return later, Some(cause);
        }
        return later, failed;
      }
      later := later + [message.value];
    }
    failure := None;
    assert Ids(calls)[|calls|..] == [] && before + calls[..|calls|] == before + calls;
  }

  /** The first `n` calls have each been given to the registry and have got its answer as their result. */
  ghost predicate AllHandled(ledger: seq<Message>, from: nat, resolved: seq<CallRequest>, first: nat, calls: seq<ToolCall>, n: nat)
    requires n <= |calls|
  {
    && |ledger| == from + n && |resolved| == first + n
    && forall k :: 0 <= k < n ==> resolved[first+k].call == calls[k] && ResultOf(ledger[from+k], calls[k].id)
                                  && !Reports(ledger[from+k], calls[k], "canceled", true)
  }

  lemma OneMoreResult(ledger: seq<Message>, base: seq<Message>, from: nat, history: seq<Message>,
                      calls: seq<ToolCall>, index: nat, m: Message)
    requires index < |calls| && |Ids(calls)| == |calls| && ResultOf(m, calls[index].id)
    requires InStep(ledger, base, from, history, Owing(Ids(calls)[index..]))
    ensures InStep(ledger + [m], base, from, history + [m], Owing(Ids(calls)[index+1..]))
    ensures Owed(ledger + [m]).Owing? && CallsAsked(ledger + [m]) == CallsAsked(ledger)
    ensures Ids(calls[index+1..]) == Ids(calls)[index+1..]
  {
    hide Owed, Take, Ids, CallsAsked, CallIds;
    IdsAt(calls, index);
    IdsFrom(calls, index + 1);
    ResultAsksNothing(m, calls[index].id);
    AskedSame(ledger, m);
    InStepNext(ledger, base, from, history, Owing(Ids(calls)[index..]), m);
    TakesFirst(Ids(calls)[index..], m);
    assert Ids(calls)[index..][1..] == Ids(calls)[index+1..];
  }

  lemma WithinAll(some: seq<ToolCall>, before: seq<ToolCall>, calls: seq<ToolCall>, index: nat)
    requires index <= |calls| && Within(some, before + calls[..index])
    ensures Within(some, before + calls)
  {
    WithinMore(some, before + calls[..index], calls[index..]);
    assert before + calls[..index] + calls[index..] == before + calls;
  }

  lemma RanNext(ran: seq<Ran>, later: seq<Ran>, before: seq<ToolCall>, calls: seq<ToolCall>, index: nat)
    requires index < |calls| && Within(Tools(ran), before + calls[..index])
    requires later == ran || exists outcome, error :: later == ran + [Ran(calls[index], outcome, error)]
    ensures Within(Tools(later), before + calls[..index+1]) && Within(Tools(later), before + calls)
  {
    var all := before + calls[..index];
    WithinNext(Tools(ran), all, calls[index]);
    if later != ran {
      var outcome, error :| later == ran + [Ran(calls[index], outcome, error)];
      ToolsNext(ran, Ran(calls[index], outcome, error));
    }
    assert all + [calls[index]] == before + calls[..index+1];
    WithinAll(Tools(later), before, calls, index + 1);
  }

  // ---------- the loop ----------

  datatype Outcome = Running | Finished | Stopped(failure: Failure)

  /** The history the loop starts from again after a compaction. */
  function BaseAfter(initial: seq<Message>, shown: seq<Shown>): seq<Message> {
    if shown == [] then initial
    else
      var c := shown[|shown|-1];
      if c.replacement.Some? then c.replacement.value else BaseAfter(initial, shown[..|shown|-1])
  }

  /** A compaction is asked to shorten, and the model to answer, what the run started from, or what the last
      compaction left, with all that the ledger has got since after it: answered batches. */
  predicate ShownAnswered(initial: seq<Message>, shown: seq<Shown>, i: nat)
    requires i < |shown|
  {
    var c := shown[i];
    c.history == c.base + c.later && c.base == BaseAfter(initial, shown[..i]) && Answered(c.later)
  }

  predicate AllShownAnswered(initial: seq<Message>, shown: seq<Shown>) {
    forall i :: 0 <= i < |shown| ==> ShownAnswered(initial, shown, i)
  }

  lemma OneMoreShown(initial: seq<Message>, shown: seq<Shown>, c: Shown)
    requires AllShownAnswered(initial, shown)
    requires c.history == c.base + c.later && c.base == BaseAfter(initial, shown) && Answered(c.later)
    ensures AllShownAnswered(initial, shown + [c])
    ensures BaseAfter(initial, shown + [c]) == if c.replacement.Some? then c.replacement.value else c.base
  {
    var more := shown + [c];
    assert more[..|shown|] == shown;
    forall i | 0 <= i < |more|
      ensures ShownAnswered(initial, more, i)
    {
      if i < |shown| {
        assert more[..i] == shown[..i];
        assert ShownAnswered(initial, shown, i);
      }
    }
  }

  /** Between two rounds: every batch answered, and the loop's history in step with the ledger. */
  ghost predicate Between(host: Host, initial: seq<Message>, history: seq<Message>)
    reads host
  {
    && !host.emitFailed
    && InStep(host.ledger, host.base, host.from, history, Owing([]))
    && RunInOrder(host)
    && AllShownAnswered(initial, host.shown) && host.base == BaseAfter(initial, host.shown)
  }

  predicate OneShown(before: seq<Shown>, shown: seq<Shown>, toModel: bool) {
    |shown| == |before| + 1 && before <= shown && shown[|before|].toModel == toModel
  }

  method CompactHistory(host: Host, ghost initial: seq<Message>, history: seq<Message>)
    returns (r: Result<Option<seq<Message>>, Failure>)
    requires Between(host, initial, history)
    modifies host`ledger, host`canceled, host`shown, host`base, host`from, host`trouble
    ensures r.Ok? ==> Between(host, initial, if r.value.Some? then r.value.value else history)
    ensures r.Err? ==> Answered(host.ledger) && AllShownAnswered(initial, host.shown) && host.trouble
    ensures RunInOrder(host)
    ensures OneShown(old(host.shown), host.shown, false)
    ensures (old(host.canceled) ==> host.canceled) && (old(host.trouble) ==> host.trouble)
  {
    hide Owed, Take, Tools, Within, CallsAsked, CallsIn;
    ghost var c := Shown(history, host.base, host.ledger[host.from..], false, None);
    ghost var before := host.shown;
    r := host.Compact(history);
    OneMoreShown(initial, before, c.(replacement := if r.Ok? then r.value else None));
  }

  /** A request between two rounds. */
  method Ask(host: Host, ghost initial: seq<Message>, history: seq<Message>) returns (reply: Reply)
    requires Between(host, initial, history)
    modifies host`ledger, host`emitFailed, host`canceled, host`shown, host`streamed, host`trouble
    ensures !reply.Failed? || reply.failure == ContextWindow ==> Between(host, initial, history)
    ensures Answered(host.ledger) && AllShownAnswered(initial, host.shown) && RunInOrder(host)
    ensures reply.Answer? ==> SaysStreamed(reply.message, host.streamed) && CallsIn(reply.message.blocks) == reply.calls
    ensures reply.Nothing? ==> Streamed(host.streamed) == []
    ensures reply.Failed? ==> host.canceled || host.emitFailed || host.trouble
    ensures OneShown(old(host.shown), host.shown, true)
    ensures old(host.canceled) ==> host.canceled
  {
    hide Owed, Tools, Within, CallsAsked, Streamed, CallsIn, SaysStreamed, BrokenOff, AllShownAnswered, BaseAfter;
    ghost var c := Shown(history, host.base, host.ledger[host.from..], true, None);
    ghost var before := host.shown;
    reply := Request(host, history);
    OneMoreShown(initial, before, c);
  }

  /** The loop ends with an answer that calls nothing and after which nobody has said anything more; or
      with a stream that has brought nothing. */
  ghost predicate EndReached(host: Host)
    reads host
  {
    || Streamed(host.streamed) == []
    || (host.ledger != [] && SaysStreamed(host.ledger[|host.ledger|-1], host.streamed) && CallsOf(Streamed(host.streamed)) == [])
  }

  /** Every request of a compacting run comes after a compaction, and no overflow ends it without another one. */
  ghost predicate RoomMade(before: seq<Shown>, shown: seq<Shown>, compacting: bool, overflow: bool) {
    var n := |shown| - |before|;
    && before <= shown && 0 < n <= 4
    && (if compacting then !shown[|before|].toModel && (overflow && n > 1 ==> n > 2 && !shown[|before|+2].toModel)
        else n == 1 && shown[|before|].toModel)
  }

  /** The request of a round, with a compaction before it when one is due, and once more with a shorter
      history when the model's window overflowed. */
  method AskInRoom(host: Host, ghost initial: seq<Message>, compacting: bool, history: seq<Message>)
    returns (next: seq<Message>, reply: Reply)
    requires Between(host, initial, history)
    modifies host
    ensures !reply.Failed? ==> Between(host, initial, next)
    ensures !host.emitFailed ==> Answered(host.ledger)
    ensures Owed(host.ledger).Owing? && AllShownAnswered(initial, host.shown) && RunInOrder(host)
    ensures reply.Answer? ==> SaysStreamed(reply.message, host.streamed) && CallsIn(reply.message.blocks) == reply.calls
    ensures reply.Nothing? ==> Streamed(host.streamed) == []
    ensures reply.Failed? ==> host.canceled || host.emitFailed || host.trouble
    ensures RoomMade(old(host.shown), host.shown, compacting, reply == Failed(ContextWindow))
    ensures old(host.canceled) ==> host.canceled
  {
    hide Owed, AllShownAnswered, BaseAfter, Tools, Within, CallsAsked, Streamed, CallsIn, SaysStreamed;
    next := history;
    if compacting {
      var replaced := CompactHistory(host, initial, next);
      if replaced.Err? { return next, Failed(replaced.error); }
      if replaced.value.Some? { next := replaced.value.value; }
    }
    reply := Ask(host, initial, next);
    if reply.Failed? && reply.failure == ContextWindow && compacting {
      var replaced := CompactHistory(host, initial, next);
      if replaced.Err? { return next, Failed(replaced.error); }
      if replaced.value.None? { return next, Failed(ContextWindow); }
      next := replaced.value.value;
      reply := Ask(host, initial, next);
    }
  }

  /** One round: compaction, the request, its batch of calls, the checkpoint. */
  method Round(host: Host, ghost initial: seq<Message>, compacting: bool, history: seq<Message>)
    returns (next: seq<Message>, o: Outcome)
    requires Between(host, initial, history)
    modifies host
    ensures o.Running? ==> Between(host, initial, next)
    ensures Owed(host.ledger).Owing? && (!host.emitFailed ==> Answered(host.ledger))
    ensures AllShownAnswered(initial, host.shown) && RunInOrder(host)
    ensures o.Finished? ==> !host.emitFailed && EndReached(host)
    ensures o.Running? ==> CallsOf(Streamed(host.streamed)) != [] || host.taken != []
    ensures o.Stopped? ==> host.canceled || host.emitFailed || host.trouble
    ensures old(host.canceled) ==> host.canceled
  {
    hide Owed, Take, Ids, AllShownAnswered, BaseAfter, Tools, Within, CallsAsked, Streamed, CallsIn, CallsOf,
      SaysStreamed, IsInput;
    var reply: Reply;
    next, reply := AskInRoom(host, initial, compacting, history);
    if reply.Failed? { return next, Stopped(reply.failure); }
    if reply.Nothing? { return next, Finished; }
    ghost var before := host.ledger;
    InStepNext(before, host.base, host.from, next, Owing([]), reply.message);
    TakesAnswer(reply.message, host.streamed);
    AskedNext(before, reply.message);
    WithinMore(Tools(host.ran), CallsAsked(before), reply.calls);
    var ok := host.EmitMessage(reply.message);
    if !ok { return next, Stopped(EmitFailed); }
    var later, failure := Batch(host, next + [reply.message], reply.calls, CallsAsked(before));
    if failure.Some? { return later, Stopped(failure.value); }
    ghost var answered := host.ledger;
    var steers, refused := host.Checkpoint();
    InStepInputs(answered, host.base, host.from, later, steers);
    AskedSameBy(answered, steers);
    next := later + steers;
    if refused.Some? { return next, Stopped(refused.value); }
    o := if reply.calls == [] && steers == [] then Finished else Running;
  }

  lemma TakesAnswer(m: Message, chunks: seq<Chunk>)
    requires SaysStreamed(m, chunks)
    ensures Take(Owing([]), m) == Owing(Ids(CallsIn(m.blocks))) && CallsOf(Streamed(chunks)) == CallsIn(m.blocks)
  {
    OutgoingCarriesNoResult(m.blocks);
    IdsOfCalls(m.blocks);
    CallsUttered(m.blocks);
  }

  /** The first `rounds` rounds of any execution, canceled at any point and with any answers from outside.
      However it ends, no result is missing, out of order or behind another input unless `Emit` has
      failed; after such a failure only the last results of the last batch can be missing. Tools run only
      for calls in the ledger, each at most once and in their order. The loop goes on until an answer calls
      nothing and nobody adds anything, and stops earlier only when it is canceled or something has failed. */
  method Run(host: Host, initial: seq<Message>, compacting: bool, rounds: nat) returns (o: Outcome)
    requires host.ledger == [] && !host.emitFailed && host.shown == [] && host.base == initial && host.from == 0
    requires host.ran == []
    modifies host
    ensures !host.emitFailed ==> Answered(host.ledger)
    ensures Owed(host.ledger).Owing?
    ensures AllShownAnswered(initial, host.shown) && RunInOrder(host)
    ensures o.Finished? || o.Running? ==> !host.emitFailed
    ensures o.Finished? ==> EndReached(host)
    ensures o.Stopped? ==> host.canceled || host.emitFailed || host.trouble
  {
    var history := initial;
    o := Running;
    assert InStep(host.ledger, host.base, host.from, history, Owing([]));
    for k := 0 to rounds
      invariant o == Running && Between(host, initial, history)
    {
      history, o := Round(host, initial, compacting, history);
      if !o.Running? { return; }
    }
  }
}
