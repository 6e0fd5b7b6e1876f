/** One session ledger (internal/session/session.go): a tree of nodes that only grows, a head,
    and the history read along the path from the root to the head. */
module Ledger {
  import opened Basics
  import opened Messages

  datatype Node = Node(id: Id, parent: Id, seqNo: nat, message: Message)

  datatype Entry = Entry(id: Id, parentID: Id, seqNo: nat, message: Message)

  type Nodes = map<Id, Node>

  datatype AppendError = BadEntryID | BadMessage | BoundaryChanged | InvalidRetained | AlreadyExists

  // ---------- the tree ----------

  /** A position of the head: a node, or "" in front of the first one. */
  predicate Place(nodes: Nodes, id: Id) {
    id == "" || id in nodes
  }

  predicate TreeNode(nodes: Nodes, id: Id)
    requires id in nodes
  {
    var n := nodes[id];
    && n.id == id && id != "" && Place(nodes, n.parent)
    && n.seqNo > (if n.parent in nodes then nodes[n.parent].seqNo else 0)
  }

  /** Parents are older than their children, so every path ends at the root. */
  predicate Tree(nodes: Nodes) {
    forall id :: id in nodes ==> TreeNode(nodes, id)
  }

  function Age(nodes: Nodes, id: Id): nat {
    if id in nodes then nodes[id].seqNo else 0
  }

  /** The identities from the root down to `id`. */
  function Chain(nodes: Nodes, id: Id): seq<Id>
    requires Tree(nodes) && Place(nodes, id)
    decreases Age(nodes, id)
  {
    if id == "" then []
    else
      assert TreeNode(nodes, id);
      Chain(nodes, nodes[id].parent) + [id]
  }

  function EntryOf(n: Node): Entry {
    Entry(n.id, n.parent, n.seqNo, n.message)
  }

  function EntriesAt(nodes: Nodes, id: Id): seq<Entry>
    requires Tree(nodes) && Place(nodes, id)
    decreases Age(nodes, id)
  {
    if id == "" then []
    else
      assert TreeNode(nodes, id);
      EntriesAt(nodes, nodes[id].parent) + [EntryOf(nodes[id])]
  }

  function Ids(entries: seq<Entry>): (ids: seq<Id>)
    ensures |ids| == |entries|
    ensures forall i :: 0 <= i < |ids| ==> ids[i] == entries[i].id
  {
    seq(|entries|, i requires 0 <= i < |entries| => entries[i].id)
  }

  /** What holds of every stored message that carries a compaction. */
  predicate SoundNode(nodes: Nodes, id: Id)
    requires Tree(nodes) && id in nodes
  {
    var m := nodes[id].message;
    m.compaction.Some? ==>
      && IsSummary(m)
      && m.compaction.value.throughEntryID == nodes[id].parent
      && NoDuplicates(m.compaction.value.retainedEntryIDs)
      && assert TreeNode(nodes, id);
         forall r :: r in m.compaction.value.retainedEntryIDs ==> r in Chain(nodes, nodes[id].parent)
  }

  predicate Sound(nodes: Nodes) {
    Tree(nodes) && forall id :: id in nodes ==> SoundNode(nodes, id)
  }

  lemma ChainUnfold(nodes: Nodes, id: Id)
    requires Tree(nodes) && id in nodes
    ensures TreeNode(nodes, id)
    ensures Chain(nodes, id) == Chain(nodes, nodes[id].parent) + [id]
    ensures EntriesAt(nodes, id) == EntriesAt(nodes, nodes[id].parent) + [EntryOf(nodes[id])]
  {
    assert TreeNode(nodes, id);
  }

  /** Entry `i` of a path is a node of the ledger, and the path up to it is the path of that node. */
  predicate OnPath(nodes: Nodes, entries: seq<Entry>, i: nat)
    requires Tree(nodes) && i < |entries|
  {
    var e := entries[i];
    && e.id in nodes && e == EntryOf(nodes[e.id]) && e.id != ""
    && EntriesAt(nodes, e.id) == entries[..i+1]
    && Chain(nodes, e.id) == Ids(entries)[..i+1]
    && e.parentID == (if i == 0 then "" else entries[i-1].id)
    && (i > 0 ==> entries[i-1].seqNo < e.seqNo)
  }

  lemma {:induction false} PathShape(nodes: Nodes, id: Id)
    requires Tree(nodes) && Place(nodes, id)
    ensures var entries := EntriesAt(nodes, id);
            && (forall i :: 0 <= i < |entries| ==> OnPath(nodes, entries, i))
            && Chain(nodes, id) == Ids(entries)
            && id == (if entries == [] then "" else entries[|entries|-1].id)
    decreases Age(nodes, id)
  {
    if id != "" {
      ChainUnfold(nodes, id);
      var parent := nodes[id].parent;
      PathShape(nodes, parent);
      var before, entries := EntriesAt(nodes, parent), EntriesAt(nodes, id);
      assert Ids(entries) == Ids(before) + [id];
      forall i | 0 <= i < |entries|
        ensures OnPath(nodes, entries, i)
      {
        if i < |before| {
          LongerPath(nodes, before, entries, i);
        } else {
          assert entries[..i+1] == entries && Ids(entries)[..i+1] == Ids(entries);
          if i > 0 { assert OnPath(nodes, before, i - 1); }
        }
      }
    }
  }

  lemma LongerPath(nodes: Nodes, before: seq<Entry>, entries: seq<Entry>, i: nat)
    requires Tree(nodes) && i < |before| && before <= entries && OnPath(nodes, before, i)
    ensures OnPath(nodes, entries, i)
  {
    assert entries[..i+1] == before[..i+1];
    assert Ids(entries)[..i+1] == Ids(before)[..i+1];
  }

  lemma {:induction false} Rising(nodes: Nodes, entries: seq<Entry>, i: nat, j: nat)
    requires Tree(nodes) && i < j < |entries| && forall k :: 0 <= k < |entries| ==> OnPath(nodes, entries, k)
    ensures entries[i].seqNo < entries[j].seqNo
  {
    assert OnPath(nodes, entries, j);
    if i < j - 1 { Rising(nodes, entries, i, j - 1); }
  }

  lemma PathDistinct(nodes: Nodes, id: Id)
    requires Tree(nodes) && Place(nodes, id)
    ensures NoDuplicates(Ids(EntriesAt(nodes, id)))
  {
    PathShape(nodes, id);
    var entries := EntriesAt(nodes, id);
    forall i, j | 0 <= i < j < |entries|
      ensures entries[i].id != entries[j].id
    {
      Rising(nodes, entries, i, j);
      assert OnPath(nodes, entries, i) && OnPath(nodes, entries, j);
    }
  }

  // ---------- the effective context ----------

  /** The position of the last summary, or 0 when there is none. */
  function LastSummary(entries: seq<Entry>): (start: nat)
    ensures start == 0 || start < |entries|
    ensures forall i :: start < i < |entries| ==> !IsSummary(entries[i].message)
    ensures start > 0 ==> IsSummary(entries[start].message)
  {
    if entries == [] then 0
    else if IsSummary(entries[|entries|-1].message) then |entries| - 1
    else LastSummary(entries[..|entries|-1])
  }

  /** The entry a map keyed by identity would give. */
  function Find(entries: seq<Entry>, id: Id): Option<Entry> {
    if entries == [] then None
    else if entries[|entries|-1].id == id then Some(entries[|entries|-1])
    else Find(entries[..|entries|-1], id)
  }

  function Pick(entries: seq<Entry>, ids: seq<Id>): seq<Entry> {
    if ids == [] then []
    else
      var found := Find(entries, ids[|ids|-1]);
      Pick(entries, ids[..|ids|-1]) + (if found.Some? then [found.value] else [])
  }

  /** `ContextEntries`: the last summary, the entries it retains, and everything after it. */
  function ContextOf(entries: seq<Entry>): seq<Entry> {
    var start := LastSummary(entries);
    if entries == [] || entries[start].message.compaction.None? then entries[start..]
    else [entries[start]] + Pick(entries[..start], entries[start].message.compaction.value.retainedEntryIDs) + entries[start+1..]
  }

  function Projected(entries: seq<Entry>): (h: seq<Message>)
    ensures |h| == |entries|
    ensures forall i :: 0 <= i < |h| ==> h[i] == Project(entries[i].message)
  {
    seq(|entries|, i requires 0 <= i < |entries| => Project(entries[i].message))
  }

  function HistoryOf(entries: seq<Entry>): seq<Message> {
    Projected(ContextOf(entries))
  }

  /** Only summaries stand for other entries. */
  predicate OnlySummariesCompact(entries: seq<Entry>) {
    forall e :: e in entries && e.message.compaction.Some? ==> IsSummary(e.message)
  }

  lemma ProjectedMore(entries: seq<Entry>, e: Entry)
    ensures Projected(entries + [e]) == Projected(entries) + [Project(e.message)]
  {
    hide Project;
  }

  /** How the effective context grows by one entry. */
  lemma ContextGrows(entries: seq<Entry>, e: Entry)
    requires OnlySummariesCompact(entries + [e])
    ensures !IsSummary(e.message) ==> ContextOf(entries + [e]) == ContextOf(entries) + [e]
    ensures IsSummary(e.message) ==>
              ContextOf(entries + [e])
              == [e] + (if e.message.compaction.Some? then Pick(entries, e.message.compaction.value.retainedEntryIDs) else [])
  {
    var all := entries + [e];
    assert all[..|entries|] == entries && all[|entries|] == e && e in all;
    hide IsSummary, Pick;
    if IsSummary(e.message) {
      assert LastSummary(all) == |entries| && all[|entries|..] == [e] && all[|entries|+1..] == [];
      hide LastSummary, OnlySummariesCompact;
    } else if entries == [] {
      assert all == [e] && all[0..] == [e] && entries[0..] == [];
    } else {
      var start := LastSummary(entries);
      assert LastSummary(all) == start;
      hide LastSummary, OnlySummariesCompact;
      assert all[start] == entries[start] && all[..start] == entries[..start];
      assert all[start..] == entries[start..] + [e] && all[start+1..] == entries[start+1..] + [e];
    }
  }

  /** How the history grows by one entry: an ordinary message joins it at the end, a summary replaces it by
      itself and the entries it retains, and one that names none by itself alone. */
  lemma HistoryGrows(entries: seq<Entry>, e: Entry)
    requires OnlySummariesCompact(entries + [e])
    ensures !IsSummary(e.message) ==> HistoryOf(entries + [e]) == HistoryOf(entries) + [Project(e.message)]
    ensures IsSummary(e.message) ==>
              HistoryOf(entries + [e]) == [Project(e.message)]
                + (if e.message.compaction.Some? then Projected(Pick(entries, e.message.compaction.value.retainedEntryIDs)) else [])
  {
    ContextGrows(entries, e);
    hide ContextOf, Pick, Project, IsSummary;
    if IsSummary(e.message) {
      ProjectedFirst(e, if e.message.compaction.Some? then Pick(entries, e.message.compaction.value.retainedEntryIDs) else []);
    } else {
      ProjectedMore(ContextOf(entries), e);
    }
  }

  lemma ProjectedFirst(e: Entry, later: seq<Entry>)
    ensures Projected([e] + later) == [Project(e.message)] + Projected(later)
  {
    hide Project;
    var a, b := Projected([e] + later), [Project(e.message)] + Projected(later);
    forall i | 0 <= i < |a|
      ensures a[i] == b[i]
    {
      if i > 0 { assert ([e] + later)[i] == later[i-1]; }
    }
  }

  lemma {:induction false} FindAt(entries: seq<Entry>, i: nat)
    requires i < |entries| && NoDuplicates(Ids(entries))
    ensures Find(entries, entries[i].id) == Some(entries[i])
  {
    var last := |entries| - 1;
    if i < last {
      assert Ids(entries)[i] != Ids(entries)[last];
      assert Ids(entries[..last]) == Ids(entries)[..last];
      FindAt(entries[..last], i);
    }
  }

  lemma {:induction false} FindSound(entries: seq<Entry>, id: Id)
    ensures match Find(entries, id)
            case Some(e) => e in entries && e.id == id
            case None => id !in Ids(entries)
  {
    if entries != [] {
      var last := |entries| - 1;
      FindSound(entries[..last], id);
      assert Ids(entries) == Ids(entries[..last]) + [entries[last].id];
    }
  }

  // ---------- appending ----------

  predicate RetainedOk(nodes: Nodes, head: Id, retained: seq<Id>)
    requires Tree(nodes) && Place(nodes, head)
  {
    NoDuplicates(retained) && forall r :: r in retained ==> r in Chain(nodes, head)
  }

  /** What `appendEntry` answers. */
  function AppendCheck(nodes: Nodes, head: Id, id: Id, m: Message): Option<AppendError>
    requires Tree(nodes) && Place(nodes, head)
  {
    if !ValidEntryID(id) then Some(BadEntryID)
    else if !ValidMessage(m) then Some(BadMessage)
    else if m.compaction.Some? && (!IsSummary(m) || m.compaction.value.throughEntryID != head) then Some(BoundaryChanged)
    else if m.compaction.Some? && !RetainedOk(nodes, head, m.compaction.value.retainedEntryIDs) then Some(InvalidRetained)
    else if id in nodes then Some(AlreadyExists)
    else None
  }

  /** What the ledger takes in: an entry under a new, plain name; a report that says who sent it and is text; a result that
      stands alone and says what it answers; a picture that is one; and a summary by the assistant that has words. A
      compaction has to be such a summary, made of the present path, and keeps entries of that path, each once. */
  lemma AcceptedExactly(nodes: Nodes, head: Id, id: Id, m: Message)
    requires Tree(nodes) && Place(nodes, head)
    ensures AppendCheck(nodes, head, id, m).None? <==>
              && id !in nodes && id !in {"", ".", ".."} && !(exists c :: c in id && c in {'/', '\\'})
              && (forall i :: 0 <= i < |m.blocks| ==> Fit(m, m.blocks[i]))
              && (m.role == Collaboration ==> m.messageID != "" && m.sourceSessionID != "")
              && (m.role == Tool ==> exists result :: m.blocks == [result] && result.kind == "tool-result")
              && (m.compaction.Some? ==>
                    && (exists i :: 0 <= i < |m.blocks| && m.blocks[i].kind == "summary")
                    && m.compaction.value.throughEntryID == head
                    && NoDuplicates(m.compaction.value.retainedEntryIDs)
                    && forall r :: r in m.compaction.value.retainedEntryIDs ==> exists e :: e in EntriesAt(nodes, head) && e.id == r)
  {
    EntriesOnChain(nodes, head);
    assert m.role == Tool && |m.blocks| == 1 ==> m.blocks == [m.blocks[0]];
    assert forall i :: 0 <= i < |m.blocks| ==> m.blocks[i] in m.blocks;
    assert forall b :: b in m.blocks ==> (Fit(m, b) <==> BlockAllowed(m.role, b) && (m.role == Collaboration ==> b.kind == "text"));
    hide Chain, EntriesAt, Fit, BlockAllowed, Tree;
  }

  /** A block in a message of its role. */
  predicate Fit(m: Message, b: Block) {
    && (m.role == Collaboration ==> b.kind == "text")
    && (b.kind == "summary" ==> m.role == Assistant && Trimming.TrimSpace(b.text) != "")
    && (b.kind == "image" ==> b.media.Some? && b.media.value.mime != "" && b.media.value.data != "")
    && (b.kind == "tool-result" ==> m.role == Tool && b.result.Some? && b.result.value.id != "" && b.result.value.name != "")
  }

  lemma {:induction false} EntriesOnChain(nodes: Nodes, head: Id)
    requires Tree(nodes) && Place(nodes, head)
    ensures forall r :: r in Chain(nodes, head) <==> exists e :: e in EntriesAt(nodes, head) && e.id == r
    decreases Age(nodes, head)
  {
    if head != "" {
      assert TreeNode(nodes, head);
      EntriesOnChain(nodes, nodes[head].parent);
      var front, last := EntriesAt(nodes, nodes[head].parent), EntryOf(nodes[head]);
      assert EntriesAt(nodes, head) == front + [last] && last in [last];
      hide EntriesAt;
    }
  }

  /** A new leaf leaves every existing path alone. */
  lemma {:induction false} NewLeafKeepsPaths(nodes: Nodes, n: Node, id: Id)
    requires Tree(nodes) && Place(nodes, id) && n.id !in nodes && n.id != "" && Place(nodes, n.parent) && n.seqNo > Age(nodes, n.parent)
    ensures Tree(nodes[n.id := n])
    ensures EntriesAt(nodes[n.id := n], id) == EntriesAt(nodes, id) && Chain(nodes[n.id := n], id) == Chain(nodes, id)
    decreases Age(nodes, id)
  {
    var grown := nodes[n.id := n];
    forall k | k in grown
      ensures TreeNode(grown, k)
    {
      if k != n.id { assert TreeNode(nodes, k); }
    }
    if id != "" {
      assert TreeNode(nodes, id);
      NewLeafKeepsPaths(nodes, n, nodes[id].parent);
    }
  }

  lemma NewLeafSound(nodes: Nodes, n: Node)
    requires Sound(nodes) && n.id !in nodes && n.id != "" && Place(nodes, n.parent) && n.seqNo > Age(nodes, n.parent)
    requires n.message.compaction.Some? ==>
               IsSummary(n.message) && n.message.compaction.value.throughEntryID == n.parent
               && RetainedOk(nodes, n.parent, n.message.compaction.value.retainedEntryIDs)
    ensures Sound(nodes[n.id := n])
  {
    var grown := nodes[n.id := n];
    NewLeafKeepsPaths(nodes, n, "");
    forall k | k in grown
      ensures SoundNode(grown, k)
    {
      if k == n.id {
        NewLeafKeepsPaths(nodes, n, n.parent);
      } else {
        assert SoundNode(nodes, k) && TreeNode(nodes, k);
        NewLeafKeepsPaths(nodes, n, nodes[k].parent);
      }
    }
  }

  lemma {:induction false} PathCompacts(nodes: Nodes, id: Id)
    requires Sound(nodes) && Place(nodes, id)
    ensures OnlySummariesCompact(EntriesAt(nodes, id))
    decreases Age(nodes, id)
  {
    if id != "" {
      ChainUnfold(nodes, id);
      PathCompacts(nodes, nodes[id].parent);
      assert SoundNode(nodes, id);
    }
  }

  /** After an accepted message that is no summary the history is longer by just that message. */
  lemma AppendedHistory(nodes: Nodes, n: Node)
    requires Sound(nodes) && n.id !in nodes && n.id != "" && Place(nodes, n.parent) && n.seqNo > Age(nodes, n.parent)
    requires !IsSummary(n.message) && n.message.compaction.None?
    ensures Tree(nodes[n.id := n])
    ensures HistoryOf(EntriesAt(nodes[n.id := n], n.id)) == HistoryOf(EntriesAt(nodes, n.parent)) + [Project(n.message)]
  {
    GrownPath(nodes, n);
    PathCompacts(nodes, n.parent);
    HistoryGrows(EntriesAt(nodes, n.parent), EntryOf(n));
  }

  lemma GrownPath(nodes: Nodes, n: Node)
    requires Tree(nodes) && n.id !in nodes && n.id != "" && Place(nodes, n.parent) && n.seqNo > Age(nodes, n.parent)
    ensures var grown := nodes[n.id := n];
            && Tree(grown)
            && EntriesAt(grown, n.id) == EntriesAt(nodes, n.parent) + [EntryOf(n)]
            && Chain(grown, n.id) == Chain(nodes, n.parent) + [n.id]
  {
    NewLeafKeepsPaths(nodes, n, n.parent);
    ChainUnfold(nodes[n.id := n], n.id);
  }

  function NodesOf(log: seq<Node>): Nodes {
    if log == [] then map[] else NodesOf(log[..|log|-1])[log[|log|-1].id := log[|log|-1]]
  }

  /** Retained entries, looked up in a map of the earlier ones. */
  method PickByID(before: seq<Entry>, retained: seq<Id>) returns (out: seq<Entry>)
    ensures out == Pick(before, retained)
  {
    var byID: map<Id, Entry> := map[];
    for index := 0 to |before|
      invariant forall id :: id in byID <==> Find(before[..index], id).Some?
      invariant forall id :: id in byID ==> Find(before[..index], id) == Some(byID[id])
    {
      assert before[..index+1][..index] == before[..index];
      byID := byID[before[index].id := before[index]];
    }
    assert before[..|before|] == before;
    out := [];
    for index := 0 to |retained|
      invariant out == Pick(before, retained[..index])
    {
      assert retained[..index+1][..index] == retained[..index];
      if retained[index] in byID {
        out := out + [byID[retained[index]]];
      }
    }
    assert retained[..|retained|] == retained;
  }

  class Session {
    var nodes: Nodes
    var head: Id
    var next: nat
    /** The ledger file: every stored node in the order of its line. */
    var log: seq<Node>

    ghost predicate Valid()
      reads this
    {
      && Sound(nodes) && Place(nodes, head)
      && (forall id :: id in nodes ==> nodes[id].seqNo <= next)
      && nodes == NodesOf(log)
      && |log| == next && (forall i :: 0 <= i < |log| ==> log[i].seqNo == i + 1)
    }

    constructor ()
      ensures Valid() && nodes == map[] && head == "" && log == []
    {
      nodes, head, next, log := map[], "", 0, [];
    }

    /** `Get`: the session read back from its file stands at the last line of it. */
    constructor Load(lines: seq<Node>)
      requires Sound(NodesOf(lines)) && forall i :: 0 <= i < |lines| ==> lines[i].seqNo == i + 1
      ensures Valid() && nodes == NodesOf(lines) && log == lines && next == |lines|
      ensures head == if lines == [] then "" else lines[|lines|-1].id
    {
      nodes, head, next, log := map[], "", 0, lines;
      new;
      for i := 0 to |lines|
        invariant nodes == NodesOf(lines[..i]) && next == i && log == lines
        invariant head == if i == 0 then "" else lines[i-1].id
        invariant Place(nodes, head)
        invariant forall id :: id in nodes ==> nodes[id].seqNo <= next
      {
        assert lines[..i+1][..i] == lines[..i];
        nodes := nodes[lines[i].id := lines[i]];
        head := lines[i].id;
        if lines[i].seqNo > next {
          next := lines[i].seqNo;
        }
      }
      assert lines[..|lines|] == lines;
    }

    /** A session put together from its parts. */
    constructor Made(nodes: Nodes, head: Id, log: seq<Node>)
      requires Sound(nodes) && Place(nodes, head) && nodes == NodesOf(log)
      requires forall i :: 0 <= i < |log| ==> log[i].seqNo == i + 1
      requires forall id :: id in nodes ==> nodes[id].seqNo <= |log|
      ensures Valid() && this.nodes == nodes && this.head == head && this.log == log && next == |log|
    {
      this.nodes, this.head, this.next, this.log := nodes, head, |log|, log;
    }

    /** The ancestors of the head, by the loop over parents. */
    method Ancestors() returns (ancestors: set<Id>)
      requires Valid()
      ensures forall id :: id in ancestors <==> id in Chain(nodes, head)
    {
      ancestors := {};
      var parent := head;
      while parent != ""
        invariant Place(nodes, parent)
        invariant forall id :: id in Chain(nodes, head) <==> id in ancestors || id in Chain(nodes, parent)
        decreases Age(nodes, parent)
      {
        ChainUnfold(nodes, parent);
        ancestors := ancestors + {parent};
        parent := nodes[parent].parent;
      }
    }

    /** Every retained identity uses up one ancestor. */
    method CheckRetained(retained: seq<Id>) returns (ok: bool)
      requires Valid()
      ensures ok == RetainedOk(nodes, head, retained)
    {
      var ancestors := Ancestors();
      for i := 0 to |retained|
        invariant forall a, b :: 0 <= a < b < i ==> retained[a] != retained[b]
        invariant forall a :: 0 <= a < i ==> retained[a] in Chain(nodes, head)
        invariant forall id :: id in ancestors <==> id in Chain(nodes, head) && id !in retained[..i]
      {
        if retained[i] !in ancestors {
          assert retained[i] in retained;
          if retained[i] in retained[..i] {
            var a :| 0 <= a < i && retained[..i][a] == retained[i];
            assert retained[a] == retained[i];
          }
          return false;
        }
        ancestors := ancestors - {retained[i]};
        assert retained[..i+1] == retained[..i] + [retained[i]];
      }
      return true;
    }

    /** `AppendID`: a refused message leaves the ledger alone; an accepted one becomes the new head. */
    method AppendID(id: Id, m: Message) returns (r: Result<Entry, AppendError>)
      requires Valid()
      modifies this
      ensures Valid()
      ensures match AppendCheck(old(nodes), old(head), id, m)
              case Some(e) => r == Err(e) && nodes == old(nodes) && head == old(head) && log == old(log)
              case None =>
                var n := Node(id, old(head), old(next) + 1, m);
                r == Ok(EntryOf(n)) && nodes == old(nodes)[id := n] && head == id && log == old(log) + [n]
                && EntriesAt(nodes, head) == EntriesAt(old(nodes), old(head)) + [EntryOf(n)]
                && (!IsSummary(m) ==> HistoryOf(EntriesAt(nodes, head)) == HistoryOf(EntriesAt(old(nodes), old(head))) + [Project(m)])
    {
      hide Tree, EntriesAt, Chain, IsSummary, RetainedOk, ValidMessage, SoundNode, TreeNode;
      if !ValidEntryID(id) { return Err(BadEntryID); }
      if !ValidMessage(m) { return Err(BadMessage); }
      if m.compaction.Some? {
        if !IsSummary(m) || m.compaction.value.throughEntryID != head {
          return Err(BoundaryChanged);
        }
        var ok := CheckRetained(m.compaction.value.retainedEntryIDs);
        if !ok { return Err(InvalidRetained); }
      }
      if id in nodes { return Err(AlreadyExists); }
      var node := Node(id, head, next + 1, m);
      NewLeafSound(nodes, node);
      GrownPath(nodes, node);
      if !IsSummary(m) { AppendedHistory(nodes, node); }
      hide HistoryOf, Project;
      assert (log + [node])[..|log|] == log;
      log := log + [node];
      nodes := nodes[id := node];
      head := id;
      next := node.seqNo;
      return Ok(Entry(node.id, node.parent, node.seqNo, m));
    }

    method Branch(id: Id) returns (ok: bool)
      requires Valid()
      modifies this`head
      ensures Valid() && ok == Place(nodes, id)
      ensures head == if ok then id else old(head)
    {
      if id != "" && id !in nodes {
        return false;
      }
      head := id;
      return true;
    }

    /** The walk from the head back to the root. */
    method PathBack() returns (ids: seq<Id>)
      requires Valid()
      ensures forall k :: 0 <= k < |ids| ==> ids[k] in nodes
      ensures EntriesAt(nodes, head) == Backwards(nodes, ids)
    {
      ids := [];
      var id := head;
      while id != ""
        invariant Place(nodes, id)
        invariant forall k :: 0 <= k < |ids| ==> ids[k] in nodes
        invariant EntriesAt(nodes, head) == EntriesAt(nodes, id) + Backwards(nodes, ids)
        decreases Age(nodes, id)
      {
        ChainUnfold(nodes, id);
        OlderFirst(nodes, EntriesAt(nodes, nodes[id].parent), id, ids);
        ids := ids + [id];
        id := nodes[id].parent;
      }
    }

    method Entries() returns (out: seq<Entry>)
      requires Valid()
      ensures out == EntriesAt(nodes, head)
    {
      var ids := PathBack();
      hide Valid, EntriesAt;
      out := [];
      var i := |ids|;
      assert ids[..|ids|] == ids;
      while i > 0
        invariant 0 <= i <= |ids|
        invariant Backwards(nodes, ids) == out + Backwards(nodes, ids[..i])
      {
        i := i - 1;
        assert ids[..i+1][..i] == ids[..i] && ids[..i+1][i] == ids[i];
        out := out + [EntryOf(nodes[ids[i]])];
      }
    }

    method ContextEntries() returns (out: seq<Entry>)
      requires Valid()
      ensures out == ContextOf(EntriesAt(nodes, head))
    {
      var entries := Entries();
      hide Valid, EntriesAt;
      var start := 0;
      for index := 0 to |entries|
        invariant start == LastSummary(entries[..index])
      {
        assert entries[..index+1][..index] == entries[..index];
        if IsSummary(entries[index].message) {
          start := index;
        }
      }
      assert entries[..|entries|] == entries;
      if |entries| == 0 || entries[start].message.compaction.None? {
        return entries[start..];
      }
      var kept := PickByID(entries[..start], entries[start].message.compaction.value.retainedEntryIDs);
      out := [entries[start]] + kept + entries[start+1..];
    }

    method History() returns (out: seq<Message>)
      requires Valid()
      ensures out == HistoryOf(EntriesAt(nodes, head))
    {
      var entries := ContextEntries();
      out := ProjectAll(entries);
    }
  }

  method ProjectOne(message: Message) returns (projected: Message)
    ensures projected == Project(message)
  {
    if IsSummary(message) {
      projected := ProjectSummary(message);
    } else if message.incomplete {
      projected := ProjectIncomplete(message);
    } else {
      projected := message;
    }
  }

  method ProjectAll(entries: seq<Entry>) returns (out: seq<Message>)
    ensures out == Projected(entries)
  {
    hide Project;
    out := [];
    for i := 0 to |entries|
      invariant |out| == i && forall k :: 0 <= k < i ==> out[k] == Project(entries[k].message)
    {
      var projected := ProjectOne(entries[i].message);
      out := out + [projected];
    }
  }

  lemma OlderFirst(nodes: Nodes, older: seq<Entry>, id: Id, ids: seq<Id>)
    requires id in nodes && forall k :: 0 <= k < |ids| ==> ids[k] in nodes
    ensures older + [EntryOf(nodes[id])] + Backwards(nodes, ids) == older + Backwards(nodes, ids + [id])
  {
    assert (ids + [id])[..|ids|] == ids;
    assert older + [EntryOf(nodes[id])] + Backwards(nodes, ids) == older + ([EntryOf(nodes[id])] + Backwards(nodes, ids));
  }

  /** The entries of identities listed from the newest to the oldest. */
  function Backwards(nodes: Nodes, ids: seq<Id>): seq<Entry>
    requires forall k :: 0 <= k < |ids| ==> ids[k] in nodes
  {
    if ids == [] then [] else [EntryOf(nodes[ids[|ids|-1]])] + Backwards(nodes, ids[..|ids|-1])
  }

  /** Closing and reopening a session keeps the tree and the numbering; the head moves to the
      node written last. */
  method Reopen(s: Session) returns (again: Session)
    requires s.Valid()
    ensures again.Valid() && again.nodes == s.nodes && again.log == s.log && again.next == s.next
    ensures again.head == if s.log == [] then "" else s.log[|s.log|-1].id
  {
    again := new Session.Load(s.log);
  }
}
