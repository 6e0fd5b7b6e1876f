/** Choosing what a compaction keeps and committing it (internal/runner/compact.go). */
module Compact {
  import opened Basics
  import opened Messages
  import opened Ledger
  import opened Estimates
  import opened Fork
  import Trimming

  datatype CompactError =
    | NothingOld
    | NoToolBoundary
    | SummaryInputTooLarge
    | Canceled
    | ToolRequested
    | StreamFailed
    | Truncated
    | NotFinished
    | EmptySummary
    | NoReduction
    | LedgerRefused(error: AppendError)

  // ---------- open tool calls ----------

  function PendingIn(open: set<string>, blocks: seq<Block>): set<string> {
    if blocks == [] then open
    else
      var before, b := PendingIn(open, blocks[..|blocks|-1]), blocks[|blocks|-1];
      var called := if b.tool.Some? then before + {b.tool.value.id} else before;
      if b.result.Some? then called - {b.result.value.id} else called
  }

  /** The calls without a result after the first `n` entries. */
  function PendingAfter(entries: seq<Entry>, n: nat): set<string>
    requires n <= |entries|
  {
    if n == 0 then {} else PendingIn(PendingAfter(entries, n - 1), entries[n-1].message.blocks)
  }

  predicate Boundary(entries: seq<Entry>, i: nat) {
    0 < i < |entries| && PendingAfter(entries, i) == {} && entries[i].message.role != Tool
  }

  /** All blocks of the first `n` entries, in order. */
  function BlocksUpTo(entries: seq<Entry>, n: nat): seq<Block>
    requires n <= |entries|
  {
    if n == 0 then [] else BlocksUpTo(entries, n - 1) + entries[n-1].message.blocks
  }

  lemma {:induction false} PendingConcat(open: set<string>, a: seq<Block>, b: seq<Block>)
    ensures PendingIn(open, a + b) == PendingIn(PendingIn(open, a), b)
  {
    if b == [] {
      assert a + b == a;
    } else {
      assert (a + b)[..|a + b|-1] == a + b[..|b|-1];
      PendingConcat(open, a, b[..|b|-1]);
    }
  }

  lemma {:induction false} PendingFlat(entries: seq<Entry>, n: nat)
    requires n <= |entries|
    ensures PendingAfter(entries, n) == PendingIn({}, BlocksUpTo(entries, n))
  {
    if n > 0 {
      PendingFlat(entries, n - 1);
      PendingConcat({}, BlocksUpTo(entries, n - 1), entries[n-1].message.blocks);
    }
  }

  /** Some call with this ID has no result from its own block on. */
  ghost predicate Unanswered(blocks: seq<Block>, id: string) {
    exists i :: 0 <= i < |blocks| && OpenFrom(blocks, i, id)
  }

  ghost predicate OpenFrom(blocks: seq<Block>, i: nat, id: string)
    requires i < |blocks|
  {
    && blocks[i].tool.Some? && blocks[i].tool.value.id == id
    && forall j :: i <= j < |blocks| && blocks[j].result.Some? ==> blocks[j].result.value.id != id
  }

  /** The open calls are exactly those without a later result. */
  lemma {:induction false} PendingExactly(blocks: seq<Block>, id: string)
    ensures id in PendingIn({}, blocks) <==> Unanswered(blocks, id)
  {
    if blocks != [] {
      var n := |blocks| - 1;
      var front := blocks[..n];
      PendingExactly(front, id);
      if Unanswered(front, id) && !(blocks[n].result.Some? && blocks[n].result.value.id == id) {
        var i :| 0 <= i < n && OpenFrom(front, i, id);
        assert OpenFrom(blocks, i, id);
      }
      if id in PendingIn({}, blocks) && !Unanswered(front, id) { assert OpenFrom(blocks, n, id); }
      if Unanswered(blocks, id) {
        var i :| 0 <= i < |blocks| && OpenFrom(blocks, i, id);
        assert i < n ==> OpenFrom(front, i, id);
      }
    }
  }

  /** A history may be cut exactly where no tool result stands and every call before has its result. */
  lemma BoundaryExactly(entries: seq<Entry>, i: nat)
    requires i <= |entries|
    ensures PendingAfter(entries, i) == {} <==> forall id :: !Unanswered(BlocksUpTo(entries, i), id)
    ensures Boundary(entries, i) <==> 0 < i < |entries| && entries[i].message.role != Tool
                                      && forall id :: !Unanswered(BlocksUpTo(entries, i), id)
  {
    PendingFlat(entries, i);
    forall id
      ensures id in PendingAfter(entries, i) <==> Unanswered(BlocksUpTo(entries, i), id)
    {
      PendingExactly(BlocksUpTo(entries, i), id);
    }
    hide PendingAfter, Unanswered, BlocksUpTo;
    if PendingAfter(entries, i) != {} {
      var id :| id in PendingAfter(entries, i);
      assert Unanswered(BlocksUpTo(entries, i), id);
    }
  }

  /** In front of a boundary every tool call has been answered. */
  lemma BoundaryAnswersCalls(entries: seq<Entry>, cut: nat, i: nat)
    requires Boundary(entries, cut) && i < |BlocksUpTo(entries, cut)| && BlocksUpTo(entries, cut)[i].tool.Some?
    ensures var blocks := BlocksUpTo(entries, cut);
            exists j :: i <= j < |blocks| && blocks[j].result.Some? && blocks[j].result.value.id == blocks[i].tool.value.id
  {
    var blocks := BlocksUpTo(entries, cut);
    BoundaryExactly(entries, cut);
    assert !Unanswered(blocks, blocks[i].tool.value.id);
    assert !OpenFrom(blocks, i, blocks[i].tool.value.id);
  }

  // ---------- compactSelection ----------

  method TrackBlocks(open: set<string>, blocks: seq<Block>) returns (pending: set<string>)
    ensures pending == PendingIn(open, blocks)
  {
    pending := open;
    for j := 0 to |blocks|
      invariant pending == PendingIn(open, blocks[..j])
    {
      assert blocks[..j+1][..j] == blocks[..j];
      if blocks[j].tool.Some? {
        pending := pending + {blocks[j].tool.value.id};
      }
      if blocks[j].result.Some? {
        pending := pending - {blocks[j].result.value.id};
      }
    }
    assert blocks[..|blocks|] == blocks;
  }

  predicate Lists(boundaries: seq<nat>, entries: seq<Entry>, n: nat) {
    && (forall k, l :: 0 <= k < l < |boundaries| ==> boundaries[k] < boundaries[l])
    && (forall k :: 0 <= k < |boundaries| ==> boundaries[k] < n && Boundary(entries, boundaries[k]))
    && (forall i :: 0 <= i < n && Boundary(entries, i) ==> i in boundaries)
  }

  lemma ListMore(boundaries: seq<nat>, entries: seq<Entry>, n: nat)
    requires n < |entries| && Lists(boundaries, entries, n)
    ensures Lists(if Boundary(entries, n) then boundaries + [n] else boundaries, entries, n + 1)
  {
    hide Boundary;
    var more := if Boundary(entries, n) then boundaries + [n] else boundaries;
    forall i | 0 <= i < n + 1 && Boundary(entries, i)
      ensures i in more
    {
      if i == n { assert more[|boundaries|] == n; }
    }
  }

  /** The first loop: complete tool boundaries, and the calls still open at the end. */
  method FindBoundaries(entries: seq<Entry>) returns (boundaries: seq<nat>, pending: set<string>)
    ensures Lists(boundaries, entries, |entries|) && pending == PendingAfter(entries, |entries|)
  {
    hide PendingIn, Lists;
    boundaries, pending := [], {};
    assert Lists([], entries, 0) by { EmptyLists(entries); }
    for i := 0 to |entries|
      invariant Lists(boundaries, entries, i) && pending == PendingAfter(entries, i)
    {
      ListMore(boundaries, entries, i);
      if i > 0 && pending == {} && entries[i].message.role != Tool {
        boundaries := boundaries + [i];
      }
      pending := TrackBlocks(pending, entries[i].message.blocks);
    }
  }

  lemma EmptyLists(entries: seq<Entry>)
    ensures Lists([], entries, 0)
  {}

  /** Summed from the back: `suffix[i]` is the estimate of the tail from `i`, without the fixed 16. */
  method SuffixSums(history: seq<Message>) returns (suffix: array<nat>)
    ensures suffix.Length == |history| + 1
    ensures forall i :: 0 <= i <= |history| ==> suffix[i] + 16 == InputTokens(Input("", history[i..], []))
  {
    suffix := new nat[|history| + 1];
    suffix[|history|] := 0;
    hide InputTokens, HistoryTokens;
    EmptyTail(history);
    var i := |history|;
    while i > 0
      invariant 0 <= i <= |history|
      invariant forall k :: i <= k <= |history| ==> suffix[k] == HistoryTokens(history[k..])
    {
      i := i - 1;
      OneMore(history, i);
      OneAtLeast(history[i..i+1]);
      var one := EstimateInput(Input("", history[i..i+1], []));
      suffix[i] := suffix[i+1] + one - 16;
    }
    forall k | 0 <= k <= |history|
      ensures suffix[k] + 16 == InputTokens(Input("", history[k..], []))
    {
      BareHistory(history[k..]);
    }
  }

  lemma EmptyTail(history: seq<Message>)
    ensures HistoryTokens(history[|history|..]) == 0
  {}

  lemma OneAtLeast(h: seq<Message>)
    ensures InputTokens(Input("", h, [])) >= 16
  {}

  predicate Fits(history: seq<Message>, i: nat, keepTokens: int)
    requires i <= |history|
  {
    InputTokens(Input("", history[i..], [])) <= keepTokens
  }

  /** The first boundary whose tail fits when the whole does not, else the last boundary. */
  predicate RightCut(entries: seq<Entry>, history: seq<Message>, keepTokens: int, cut: nat)
    requires |entries| == |history|
  {
    && Boundary(entries, cut)
    && if !Fits(history, 0, keepTokens) && exists b :: 0 <= b < |entries| && Boundary(entries, b) && Fits(history, b, keepTokens)
       then Fits(history, cut, keepTokens) && forall b :: 0 <= b < cut && Boundary(entries, b) ==> !Fits(history, b, keepTokens)
       else forall b :: 0 <= b < |entries| && Boundary(entries, b) ==> b <= cut
  }

  /** The second loop over the boundaries. */
  method ChooseCut(entries: seq<Entry>, history: seq<Message>, keepTokens: int, boundaries: seq<nat>) returns (cut: nat)
    requires |entries| == |history| && Lists(boundaries, entries, |entries|) && boundaries != []
    ensures RightCut(entries, history, keepTokens, cut)
  {
    var suffix := SuffixSums(history);
    hide InputTokens, Boundary;
    cut := boundaries[|boundaries|-1];
    assert history[0..] == history;
    for k := 0 to |boundaries|
      invariant cut == boundaries[|boundaries|-1]
      invariant forall l :: 0 <= l < k ==> !Fits(history, boundaries[l], keepTokens)
      invariant k > 0 ==> !Fits(history, 0, keepTokens)
    {
      if suffix[0] + 16 <= keepTokens {
        return;
      }
      var candidate := boundaries[k];
      if suffix[candidate] + 16 <= keepTokens {
        cut := candidate;
        forall b | 0 <= b < cut && Boundary(entries, b)
          ensures !Fits(history, b, keepTokens)
        {
          var l :| 0 <= l < |boundaries| && boundaries[l] == b;
          assert l < k;
        }
        return;
      }
    }
  }

  /** The latest user entry, wherever it stands. */
  function LatestUser(entries: seq<Entry>): (u: Option<nat>)
    ensures u.Some? ==> u.value < |entries| && entries[u.value].message.role == User
    ensures u.Some? ==> forall i :: u.value < i < |entries| ==> entries[i].message.role != User
    ensures u.None? ==> forall i :: 0 <= i < |entries| ==> entries[i].message.role != User
  {
    if entries == [] then None
    else if entries[|entries|-1].message.role == User then Some(|entries| - 1)
    else LatestUser(entries[..|entries|-1])
  }

  /** The tail, with the latest user entry in front when the tail does not hold it. */
  function RetainedOf(entries: seq<Entry>, cut: nat): seq<Id>
    requires cut <= |entries|
  {
    var u := LatestUser(entries);
    (if u.Some? && u.value < cut then [entries[u.value].id] else []) + Ids(entries[cut..])
  }

  /** The loop from the back that stops at the first user entry. */
  method EarlierUser(entries: seq<Entry>, cut: nat) returns (retained: seq<Id>)
    requires cut <= |entries|
    ensures var u := LatestUser(entries); retained == if u.Some? && u.value < cut then [entries[u.value].id] else []
  {
    assert entries[..|entries|] == entries;
    var i := |entries|;
    while i > 0
      invariant 0 <= i <= |entries| && LatestUser(entries) == LatestUser(entries[..i])
    {
      i := i - 1;
      assert entries[..i+1][..i] == entries[..i] && entries[..i+1][i] == entries[i];
      if entries[i].message.role == User {
        if i < cut {
          return [entries[i].id];
        }
        return [];
      }
    }
    return [];
  }

  lemma NextId(entries: seq<Entry>, cut: nat, k: nat, user: seq<Id>)
    requires cut <= k < |entries|
    ensures user + Ids(entries[cut..k+1]) == user + Ids(entries[cut..k]) + [entries[k].id]
  {
    var before, now := entries[cut..k], entries[cut..k+1];
    assert now == before + [entries[k]];
    assert Ids(now) == Ids(before) + [entries[k].id];
  }

  method Retain(entries: seq<Entry>, cut: nat) returns (retained: seq<Id>)
    requires cut <= |entries|
    ensures retained == RetainedOf(entries, cut)
  {
    var user := EarlierUser(entries, cut);
    hide LatestUser;
    retained := user;
    for k := cut to |entries|
      invariant retained == user + Ids(entries[cut..k])
    {
      NextId(entries, cut, k, user);
      retained := retained + [entries[k].id];
    }
    assert entries[cut..] == entries[cut..|entries|];
  }

  /** The right cut with nothing left open, and what is retained for it. */
  predicate RightSelection(entries: seq<Entry>, history: seq<Message>, keepTokens: int, cut: nat, retained: seq<Id>)
    requires |entries| == |history|
  {
    && |entries| >= 2 && PendingAfter(entries, |entries|) == {}
    && RightCut(entries, history, keepTokens, cut)
    && cut <= |entries| && retained == RetainedOf(entries, cut)
  }

  /** `compactSelection`. */
  method CompactSelection(entries: seq<Entry>, history: seq<Message>, keepTokens: int)
    returns (r: Result<(nat, seq<Id>), CompactError>)
    requires |entries| == |history|
    ensures r.Err? ==>
              if |entries| < 2 then r.error == NothingOld
              else r.error == NoToolBoundary
                   && (PendingAfter(entries, |entries|) != {} || forall i :: 0 <= i < |entries| ==> !Boundary(entries, i))
    ensures r.Ok? ==> RightSelection(entries, history, keepTokens, r.value.0, r.value.1)
  {
    if |entries| < 2 { return Err(NothingOld); }
    var boundaries, pending := FindBoundaries(entries);
    if pending != {} || |boundaries| == 0 { return Err(NoToolBoundary); }
    var cut := ChooseCut(entries, history, keepTokens, boundaries);
    var retained := Retain(entries, cut);
    return Ok((cut, retained));
  }

  predicate StandsBefore(entries: seq<Entry>, a: Id, b: Id) {
    exists k, l :: 0 <= k < l < |entries| && entries[k].id == a && entries[l].id == b
  }

  /** The place in the ledger of retained identity `i`. */
  function SourceOf(entries: seq<Entry>, cut: nat, i: nat): (k: nat)
    requires cut <= |entries| && i < |RetainedOf(entries, cut)|
    ensures k < |entries| && RetainedOf(entries, cut)[i] == Ids(entries)[k]
  {
    var u := LatestUser(entries);
    if u.None? || u.value >= cut then cut + i else if i == 0 then u.value else cut + i - 1
  }

  /** The retained identities are distinct and stand in the order of the ledger. */
  lemma RetainedInOrder(entries: seq<Entry>, cut: nat)
    requires cut <= |entries| && NoDuplicates(Ids(entries))
    ensures NoDuplicates(RetainedOf(entries, cut))
    ensures forall r :: r in RetainedOf(entries, cut) ==> r in Ids(entries)
    ensures var retained := RetainedOf(entries, cut);
            forall i, j :: 0 <= i < j < |retained| ==> StandsBefore(entries, retained[i], retained[j])
  {
    var retained := RetainedOf(entries, cut);
    forall i, j | 0 <= i < j < |retained|
      ensures StandsBefore(entries, retained[i], retained[j]) && retained[i] != retained[j]
    {
      var k, l := SourceOf(entries, cut, i), SourceOf(entries, cut, j);
      assert k < l;
      hide RetainedOf, SourceOf;
      assert entries[k].id == retained[i] && entries[l].id == retained[j];
    }
    forall r | r in retained
      ensures r in Ids(entries)
    {
      var i :| 0 <= i < |retained| && retained[i] == r;
      assert Ids(entries)[SourceOf(entries, cut, i)] == r;
    }
  }

  /** What is retained: everything from the cut on, and the latest thing the user has said; nothing else. */
  lemma RetainedExactly(entries: seq<Entry>, cut: nat, id: Id)
    requires cut <= |entries|
    ensures id in RetainedOf(entries, cut) <==>
              || (exists k :: cut <= k < |entries| && entries[k].id == id)
              || exists u :: 0 <= u < cut && entries[u].id == id && entries[u].message.role == User
                             && forall i :: u < i < |entries| ==> entries[i].message.role != User
  {
    hide LatestUser;
    if id in RetainedOf(entries, cut) {
      var i :| 0 <= i < |RetainedOf(entries, cut)| && RetainedOf(entries, cut)[i] == id;
      assert entries[SourceOf(entries, cut, i)].id == id;
    }
    TailRetained(entries, cut);
  }

  lemma TailRetained(entries: seq<Entry>, cut: nat)
    requires cut <= |entries|
    ensures forall k :: cut <= k < |entries| ==> entries[k].id in RetainedOf(entries, cut)
  {
    hide LatestUser;
    var tail, retained := Ids(entries[cut..]), RetainedOf(entries, cut);
    var user := retained[..|retained|-|tail|];
    assert retained == user + tail;
    hide RetainedOf;
    forall k | cut <= k < |entries|
      ensures entries[k].id in retained
    {
      assert tail[k-cut] == entries[k].id;
      assert tail[k-cut] in tail;
    }
  }

  // ---------- the context of a ledger ----------

  lemma {:induction false} PickIds(before: seq<Entry>, retained: seq<Id>)
    requires forall r :: r in retained ==> r in Ids(before)
    ensures Ids(Pick(before, retained)) == retained
    ensures forall e :: e in Pick(before, retained) ==> e in before
    decreases |retained|
  {
    if retained != [] {
      var front, last := retained[..|retained|-1], retained[|retained|-1];
      assert last in retained && forall r :: r in front ==> r in retained;
      PickIds(before, front);
      FindSound(before, last);
      assert retained == front + [last];
    }
  }

  /** The effective context consists of entries of the path, each at most once. */
  lemma ContextWithin(entries: seq<Entry>)
    requires SoundPath(entries)
    ensures forall e :: e in ContextOf(entries) ==> e in entries
    ensures NoDuplicates(Ids(ContextOf(entries)))
  {
    var start, context := LastSummary(entries), ContextOf(entries);
    if entries == [] || entries[start].message.compaction.None? {
      assert Ids(context) == Ids(entries)[start..];
    } else {
      assert SoundCompaction(entries, start);
      var retained := entries[start].message.compaction.value.retainedEntryIDs;
      assert Ids(entries[..start]) == Ids(entries)[..start];
      PickIds(entries[..start], retained);
      var kept := Pick(entries[..start], retained);
      hide SoundPath, SoundCompaction, Pick, LastSummary;
      assert Ids(context) == [entries[start].id] + retained + Ids(entries)[start+1..];
      DistinctParts(Ids(entries), start, retained);
    }
  }

  lemma DistinctParts(ids: seq<Id>, start: nat, retained: seq<Id>)
    requires NoDuplicates(ids) && start < |ids| && NoDuplicates(retained) && forall r :: r in retained ==> r in ids[..start]
    ensures NoDuplicates([ids[start]] + retained + ids[start+1..])
  {
    var all := [ids[start]] + retained + ids[start+1..];
    forall i | 1 <= i <= |retained|
      ensures exists k :: 0 <= k < start && ids[k] == all[i]
    {
      assert all[i] == retained[i-1] && retained[i-1] in retained;
      var k :| 0 <= k < |ids[..start]| && ids[..start][k] == all[i];
      assert ids[k] == all[i];
    }
    assert forall i :: |retained| < i < |all| ==> all[i] == ids[start + i - |retained|];
    forall i, j | 0 <= i < j < |all|
      ensures all[i] != all[j]
    {
      if 1 <= i && j <= |retained| {
        assert retained[i-1] != retained[j-1];
      }
    }
  }

  /** On a path every way of looking up an identity gives the same entry. */
  lemma FindSame(entries: seq<Entry>, context: seq<Entry>, id: Id)
    requires NoDuplicates(Ids(entries)) && NoDuplicates(Ids(context)) && id in Ids(context)
    requires forall e :: e in context ==> e in entries
    ensures Find(entries, id) == Find(context, id) && Find(context, id).Some?
  {
    var c :| 0 <= c < |context| && Ids(context)[c] == id;
    assert context[c] in context;
    var k :| 0 <= k < |entries| && entries[k] == context[c];
    FindAt(context, c);
    FindAt(entries, k);
  }

  lemma {:induction false} PickSame(entries: seq<Entry>, context: seq<Entry>, retained: seq<Id>)
    requires NoDuplicates(Ids(entries)) && NoDuplicates(Ids(context))
    requires forall e :: e in context ==> e in entries
    requires forall r :: r in retained ==> r in Ids(context)
    ensures Pick(entries, retained) == Pick(context, retained)
    decreases |retained|
  {
    if retained != [] {
      var front, last := retained[..|retained|-1], retained[|retained|-1];
      assert last in retained && forall r :: r in front ==> r in retained;
      FindSame(entries, context, last);
      PickSame(entries, context, front);
    }
  }

  // ---------- committing ----------

  function SummaryMessage(runID: string, afterSeq: nat, text: string, head: Id, retained: seq<Id>): Message {
    Message(Some(Compaction(head, retained)), Assistant, [Block("summary", text, None, None, None, None)], false, runID, "", "",
            nothingCarried.(afterSeq := afterSeq))
  }

  /** The history that is to replace the old one: the summary as text, then what is retained. */
  function Replacement(runID: string, text: string, context: seq<Entry>, retained: seq<Id>): seq<Message> {
    [Message(None, User, [TextBlock(SummaryText(text))], false, runID, "", "", nothingCarried)] + Projected(Pick(context, retained))
  }

  lemma SummaryProjects(runID: string, afterSeq: nat, text: string, head: Id, retained: seq<Id>)
    ensures var m := SummaryMessage(runID, afterSeq, text, head, retained);
            && IsSummary(m)
            && (Trimming.TrimSpace(text) != "" ==> ValidMessage(m))
            && Project(m) == Message(None, User, [TextBlock(SummaryText(text))], false, runID, "", "", nothingCarried)
  {
    var m := SummaryMessage(runID, afterSeq, text, head, retained);
    hide Trimming.TrimSpace;
    assert m.blocks[0] in m.blocks && m.blocks[0].kind == "summary";
    assert SummarySource([]) == "" && m.blocks[..0] == [];
    assert "" + text == text;
  }

  /** Appended behind the path it was made from, the summary turns the effective history into
      exactly the replacement. */
  lemma ReplacementIsHistory(entries: seq<Entry>, e: Entry, runID: string, afterSeq: nat, text: string, head: Id, retained: seq<Id>)
    requires SoundPath(entries) && e.message == SummaryMessage(runID, afterSeq, text, head, retained)
    requires forall r :: r in retained ==> r in Ids(ContextOf(entries))
    ensures HistoryOf(entries + [e]) == Replacement(runID, text, ContextOf(entries), retained)
  {
    var grown := entries + [e];
    ContextWithin(entries);
    assert NoDuplicates(Ids(entries));
    hide SoundPath, ContextOf;
    PickSame(entries, ContextOf(entries), retained);
    SummaryProjects(runID, afterSeq, text, head, retained);
    NewestSummary(entries, e);
    hide Project, Pick, SummaryMessage, IsSummary;
    ProjectedConcat([e], Pick(entries, retained));
    assert Projected([e]) == [Project(e.message)];
  }

  lemma ProjectedConcat(a: seq<Entry>, b: seq<Entry>)
    ensures Projected(a + b) == Projected(a) + Projected(b)
  {
    hide Project;
  }

  lemma NewestSummary(entries: seq<Entry>, e: Entry)
    requires IsSummary(e.message) && e.message.compaction.Some?
    ensures ContextOf(entries + [e]) == [e] + Pick(entries, e.message.compaction.value.retainedEntryIDs)
  {
    hide IsSummary, Pick;
    var grown := entries + [e];
    assert LastSummary(grown) == |entries|;
    assert grown[..|entries|] == entries && grown[|entries|+1..] == [];
    var kept := Pick(entries, e.message.compaction.value.retainedEntryIDs);
    assert [e] + kept + [] == [e] + kept;
  }

  /** What is retained comes from the path. */
  lemma RetainedOnPath(entries: seq<Entry>, context: seq<Entry>, retained: seq<Id>)
    requires forall e :: e in context ==> e in entries
    requires forall r :: r in retained ==> r in Ids(context)
    ensures forall r :: r in retained ==> r in Ids(entries)
  {
    forall r | r in retained
      ensures r in Ids(entries)
    {
      var k :| 0 <= k < |context| && Ids(context)[k] == r;
      assert context[k] in context;
      var l :| 0 <= l < |entries| && entries[l] == context[k];
      assert Ids(entries)[l] == r;
    }
  }

  /** The ledger never refuses what `compactSelection` retained. */
  lemma CompactionAccepted(nodes: Nodes, head: Id, id: Id, runID: string, afterSeq: nat, text: string, cut: nat)
    requires Sound(nodes) && Place(nodes, head) && ValidEntryID(id) && id !in nodes && Trimming.TrimSpace(text) != ""
    requires cut <= |ContextOf(EntriesAt(nodes, head))|
    ensures var retained := RetainedOf(ContextOf(EntriesAt(nodes, head)), cut);
            && (forall r :: r in retained ==> r in Ids(ContextOf(EntriesAt(nodes, head))))
            && AppendCheck(nodes, head, id, SummaryMessage(runID, afterSeq, text, head, retained)).None?
  {
    var entries := EntriesAt(nodes, head);
    var context := ContextOf(entries);
    var retained := RetainedOf(context, cut);
    PathIsSound(nodes, head);
    PathShape(nodes, head);
    hide Sound, SoundPath, OnPath, EntriesAt, Chain, ContextOf, RetainedOf, Trimming.TrimSpace;
    ContextWithin(entries);
    RetainedInOrder(context, cut);
    SummaryProjects(runID, afterSeq, text, head, retained);
    hide ValidMessage, IsSummary;
    RetainedOnPath(entries, context, retained);
  }

  datatype StreamChunk = TextChunk(text: string) | CallChunk | ErrorChunk | FinishChunk(reason: string) | CancelChunk

  function StreamText(stream: seq<StreamChunk>): string {
    if stream == [] then ""
    else StreamText(stream[..|stream|-1]) + if stream[|stream|-1].TextChunk? then stream[|stream|-1].text else ""
  }

  /** The reason of the last finish chunk. */
  function FinishReason(stream: seq<StreamChunk>): string {
    if stream == [] then ""
    else if stream[|stream|-1].FinishChunk? then stream[|stream|-1].reason
    else FinishReason(stream[..|stream|-1])
  }

  predicate Undisturbed(stream: seq<StreamChunk>) {
    forall c :: c in stream ==> c.TextChunk? || c.FinishChunk?
  }

  lemma StreamNext(stream: seq<StreamChunk>, i: nat)
    requires i < |stream|
    ensures StreamText(stream[..i+1]) == StreamText(stream[..i]) + if stream[i].TextChunk? then stream[i].text else ""
    ensures FinishReason(stream[..i+1]) == if stream[i].FinishChunk? then stream[i].reason else FinishReason(stream[..i])
  {
    assert stream[..i+1][..i] == stream[..i];
  }

  /** The first piece that is neither text nor a finish ends the reading. */
  ghost predicate EndedBy(stream: seq<StreamChunk>, error: CompactError) {
    exists i :: 0 <= i < |stream| && Undisturbed(stream[..i])
                && match stream[i]
                   case CallChunk => error == ToolRequested
                   case ErrorChunk => error == StreamFailed
                   case CancelChunk => error == Canceled
                   case _ => false
  }

  /** Why there is no summary. */
  ghost predicate NoSummary(stream: seq<StreamChunk>, error: CompactError) {
    if !Undisturbed(stream) then EndedBy(stream, error)
    else if FinishReason(stream) == "length" then error == Truncated
    else if FinishReason(stream) != "stop" then error == NotFinished
    else Trimming.TrimSpace(StreamText(stream)) == "" && error == EmptySummary
  }

  /** The loop over the model's answer; a chunk after which the context is cancelled ends it. */
  method ReadSummary(stream: seq<StreamChunk>) returns (r: Result<string, CompactError>)
    ensures r.Ok? ==> r.value == StreamText(stream) && Trimming.TrimSpace(r.value) != ""
                      && Undisturbed(stream) && FinishReason(stream) == "stop"
    ensures r.Err? ==> NoSummary(stream, r.error)
    ensures r.Err? ==> r.error in {Canceled, ToolRequested, StreamFailed, Truncated, NotFinished, EmptySummary}
  {
    hide Trimming.TrimSpace;
    hide StreamText, FinishReason;
    var text, finish := "", "";
    assert StreamText([]) == "" && FinishReason([]) == "" by { NothingStreamed(); }
    for i := 0 to |stream|
      invariant Undisturbed(stream[..i]) && text == StreamText(stream[..i]) && finish == FinishReason(stream[..i])
    {
      StreamNext(stream, i);
      match stream[i] {
        case TextChunk(more) => text := text + more;
        case CallChunk => return Err(ToolRequested);
        case ErrorChunk => return Err(StreamFailed);
        case FinishChunk(reason) => finish := reason;
        case CancelChunk => return Err(Canceled);
      }
      assert stream[..i+1] == stream[..i] + [stream[i]];
    }
    assert stream[..|stream|] == stream;
    if finish == "length" { return Err(Truncated); }
    if finish != "stop" { return Err(NotFinished); }
    if Trimming.TrimSpace(text) == "" { return Err(EmptySummary); }
    return Ok(text);
  }

  lemma NothingStreamed()
    ensures StreamText([]) == "" && FinishReason([]) == ""
  {}

  /** The replacement, read through a map from identities to projected messages. */
  method BuildReplacement(runID: string, text: string, context: seq<Entry>, history: seq<Message>, retained: seq<Id>)
    returns (replacement: seq<Message>)
    requires history == Projected(context) && forall r :: r in retained ==> r in Ids(context)
    ensures replacement == Replacement(runID, text, context, retained)
  {
    var byID := IndexMessages(context, history);
    var kept: seq<Message> := [];
    for i := 0 to |retained|
      invariant kept == Projected(Pick(context, retained[..i]))
    {
      hide Project, SummaryText, Pick;
      assert retained[i] in retained;
      FindSound(context, retained[i]);
      PickMore(context, retained, i);
      kept := kept + [byID[retained[i]]];
    }
    assert retained[..|retained|] == retained;
    replacement := [Message(None, User, [TextBlock(SummaryText(text))], false, runID, "", "", nothingCarried)] + kept;
  }

  method IndexMessages(context: seq<Entry>, history: seq<Message>) returns (byID: map<Id, Message>)
    requires history == Projected(context)
    ensures forall id :: id in byID <==> Find(context, id).Some?
    ensures forall id :: id in byID ==> byID[id] == Project(Find(context, id).value.message)
  {
    hide Project;
    byID := map[];
    for i := 0 to |context|
      invariant forall id :: id in byID <==> Find(context[..i], id).Some?
      invariant forall id :: id in byID ==> byID[id] == Project(Find(context[..i], id).value.message)
    {
      assert context[..i+1][..i] == context[..i];
      byID := byID[context[i].id := history[i]];
    }
    assert context[..|context|] == context;
  }

  lemma PickMore(context: seq<Entry>, retained: seq<Id>, i: nat)
    requires i < |retained| && Find(context, retained[i]).Some?
    ensures Projected(Pick(context, retained[..i+1]))
            == Projected(Pick(context, retained[..i])) + [Project(Find(context, retained[i]).value.message)]
  {
    assert retained[..i+1][..i] == retained[..i];
    ProjectedMore(Pick(context, retained[..i]), Find(context, retained[i]).value);
  }

  /** The token limit for the retained tail: a quarter of the budget, but no less than 256 and no more than 8192. */
  function KeepTokens(budget: int): (keep: int)
    ensures 256 <= keep <= 8192
    ensures 1024 <= budget < 32768 ==> keep * 4 <= budget < keep * 4 + 4
    ensures 0 < budget < 1024 ==> keep == 256
    ensures budget <= 0 || budget >= 32768 ==> keep == 8192
  {
    if budget > 0 then
      var quarter := if 256 >= budget / 4 then 256 else budget / 4;
      if 8192 <= quarter then 8192 else quarter
    else 8192
  }

  /** A summary of the run, made of the path up to `head` and anchored behind the run's input. */
  predicate MarksCompaction(m: Message, runID: string, afterSeq: nat, head: Id) {
    && m.role == Assistant && m.runID == runID && m.carried.afterSeq == afterSeq && !m.incomplete
    && m.compaction.Some? && m.compaction.value.throughEntryID == head
  }

  /** The request for a summary of what is cut off overflows the model's window. */
  predicate TooLarge(history: seq<Message>, cut: nat, instruction: string, question: Message, window: int, maxOutput: int)
    requires cut <= |history|
  {
    window > 0 && InputTokens(Input(instruction, history[..cut] + [question], [])) + maxOutput >= window
  }

  /** Why a compaction has committed nothing. */
  ghost predicate Refusal(context: seq<Entry>, runID: string, input: Input, budget: int, window: int, maxOutput: int, instruction: string,
                          question: Message, stream: seq<StreamChunk>, cancelled: bool,
                          decorate: seq<Message> -> seq<Message>, error: CompactError)
  {
    match error
    case NothingOld => |context| < 2
    case NoToolBoundary => PendingAfter(context, |context|) != {} || forall i :: 0 <= i < |context| ==> !Boundary(context, i)
    case SummaryInputTooLarge =>
      exists cut: nat :: cut <= |context| && RightCut(context, Projected(context), KeepTokens(budget), cut)
                         && TooLarge(Projected(context), cut, instruction, question, window, maxOutput)
    case NoReduction =>
      exists cut: nat :: cut <= |context| && RightCut(context, Projected(context), KeepTokens(budget), cut)
                         && Pointless(input, budget, decorate(Replacement(runID, StreamText(stream), context, RetainedOf(context, cut))))
    case LedgerRefused(_) => false
    case Canceled => cancelled || NoSummary(stream, error)
    case _ => NoSummary(stream, error)
  }

  /** The request with this history is not smaller, or still over the budget. */
  predicate Pointless(input: Input, budget: int, history: seq<Message>) {
    var after := InputTokens(input.(history := history));
    after >= InputTokens(input) || (budget > 0 && after >= budget)
  }

  /** What is to be committed: where the history is cut, what is retained, the summary, and the history that
      the next request will have. */
  datatype Proposal = Proposal(cut: nat, retained: seq<Id>, text: string, decorated: seq<Message>)

  ghost predicate RightProposal(context: seq<Entry>, runID: string, input: Input, budget: int, window: int, maxOutput: int,
                                instruction: string, question: Message, stream: seq<StreamChunk>,
                                decorate: seq<Message> -> seq<Message>, p: Proposal)
  {
    && p.cut <= |context| && RightCut(context, Projected(context), KeepTokens(budget), p.cut)
    && p.retained == RetainedOf(context, p.cut)
    && !TooLarge(Projected(context), p.cut, instruction, question, window, maxOutput)
    && p.text == StreamText(stream) && Trimming.TrimSpace(p.text) != ""
    && p.decorated == decorate(Replacement(runID, p.text, context, p.retained)) && !Pointless(input, budget, p.decorated)
  }

  /** Everything in `compactHistory` before its commit. */
  method Propose(context: seq<Entry>, history: seq<Message>, runID: string, input: Input, budget: int, window: int, maxOutput: int,
                 instruction: string, question: Message, stream: seq<StreamChunk>, ghost cancelled: bool,
                 decorate: seq<Message> -> seq<Message>)
    returns (r: Result<Proposal, CompactError>)
    requires history == Projected(context) && NoDuplicates(Ids(context))
    ensures r.Err? ==> Refusal(context, runID, input, budget, window, maxOutput, instruction, question, stream, cancelled, decorate, r.error)
    ensures r.Ok? ==> RightProposal(context, runID, input, budget, window, maxOutput, instruction, question, stream, decorate, r.value)
  {
    hide NoSummary, PendingAfter, Boundary, RightCut, RetainedOf, KeepTokens, StreamText, SummaryText, InputTokens, Undisturbed,
      FinishReason, Trimming.TrimSpace, Projected, Pick, Replacement;
    var keep := KeepTokens(budget);
    var selection := CompactSelection(context, history, keep);
    if selection.Err? { return Err(selection.error); }
    var (cut, retained) := selection.value;
    var summaryInput := Input(instruction, history[..cut] + [question], []);
    var size := EstimateInput(summaryInput);
    if window > 0 && size + maxOutput >= window { return Err(SummaryInputTooLarge); }
    var summary := ReadSummary(stream);
    if summary.Err? { return Err(summary.error); }
    RetainedInOrder(context, cut);
    var replacement := BuildReplacement(runID, summary.value, context, history, retained);
    var decorated := decorate(replacement);
    var before := EstimateInput(input);
    var after := EstimateInput(input.(history := decorated));
    if after >= before || (budget > 0 && after >= budget) { return Err(NoReduction); }
    return Ok(Proposal(cut, retained, summary.value, decorated));
  }

  /** A commit makes the session's history exactly the checked replacement, which is smaller than
      the request before it and inside the budget; every failure leaves the ledger as it was, and
      the ledger itself never refuses. */
  method CompactHistory(sess: Session, entryID: Id, runID: string, afterSeq: nat, input: Input, budget: int, window: int, maxOutput: int,
                        instruction: string, question: Message, stream: seq<StreamChunk>, cancelled: bool,
                        decorate: seq<Message> -> seq<Message>)
    returns (r: Result<seq<Message>, CompactError>)
    requires sess.Valid() && ValidEntryID(entryID) && entryID !in sess.nodes
    modifies sess
    ensures sess.Valid()
    ensures r.Err? ==> sess.nodes == old(sess.nodes) && sess.head == old(sess.head) && sess.log == old(sess.log)
    ensures r.Err? ==> Refusal(ContextOf(EntriesAt(old(sess.nodes), old(sess.head))), runID, input, budget, window, maxOutput,
                               instruction, question, stream, cancelled, decorate, r.error)
    ensures r.Ok? ==>
              var before, now := EntriesAt(old(sess.nodes), old(sess.head)), EntriesAt(sess.nodes, sess.head);
              var undecorated := HistoryOf(now);
              && sess.head == entryID && |now| == |before| + 1 && now[..|before|] == before
              && MarksCompaction(now[|before|].message, runID, afterSeq, old(sess.head))
              && undecorated != []
              && undecorated[0] == Message(None, User, [TextBlock(SummaryText(StreamText(stream)))], false, runID, "", "", nothingCarried)
              && (exists cut: nat :: cut <= |ContextOf(before)| && RightCut(ContextOf(before), HistoryOf(before), KeepTokens(budget), cut)
                    && !TooLarge(HistoryOf(before), cut, instruction, question, window, maxOutput)
                    && undecorated[1..] == Projected(Pick(ContextOf(before), RetainedOf(ContextOf(before), cut))))
              && r.value == decorate(undecorated)
              && InputTokens(input.(history := decorate(undecorated))) < InputTokens(input)
              && (budget > 0 ==> InputTokens(input.(history := decorate(undecorated))) < budget)
  {
    var head := sess.head;
    var entries := sess.ContextEntries();
    var history := sess.History();
    ghost var path := EntriesAt(sess.nodes, head);
    PathIsSound(sess.nodes, head);
    ContextWithin(path);
    hide NoSummary, PendingAfter, RightCut, RetainedOf, KeepTokens, StreamText, SummaryText, InputTokens,
      Trimming.TrimSpace, ContextOf, Projected, Pick, SoundPath, AppendCheck, Refusal, TooLarge;
    var proposal := Propose(entries, history, runID, input, budget, window, maxOutput, instruction, question, stream, cancelled, decorate);
    if proposal.Err? { return Err(proposal.error); }
    var p := proposal.value;
    if cancelled {
      assert Refusal(entries, runID, input, budget, window, maxOutput, instruction, question, stream, cancelled, decorate, Canceled) by {
        CanceledRefusal(entries, runID, input, budget, window, maxOutput, instruction, question, stream, decorate);
      }
      return Err(Canceled);
    }
    CompactionAccepted(sess.nodes, head, entryID, runID, afterSeq, p.text, p.cut);
    var entry := sess.AppendID(entryID, SummaryMessage(runID, afterSeq, p.text, head, p.retained));
    ReplacementIsHistory(path, entry.value, runID, afterSeq, p.text, head, p.retained);
    assert Replacement(runID, p.text, entries, p.retained)[1..] == Projected(Pick(entries, p.retained));
    return Ok(p.decorated);
  }

  lemma CanceledRefusal(context: seq<Entry>, runID: string, input: Input, budget: int, window: int, maxOutput: int, instruction: string,
                        question: Message, stream: seq<StreamChunk>, decorate: seq<Message> -> seq<Message>)
    ensures Refusal(context, runID, input, budget, window, maxOutput, instruction, question, stream, true, decorate, Canceled)
  {}
}
