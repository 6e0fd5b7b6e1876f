/** Copying a branch into a session of its own (internal/session/store.go, Fork). */
module Fork {
  import opened Basics
  import opened Messages
  import opened Ledger
  import Trimming

  datatype ForkError = NotInBranch | InvalidBoundary | InvalidReference

  // ---------- paths of a sound ledger ----------

  predicate SoundCompaction(entries: seq<Entry>, i: nat)
    requires i < |entries|
  {
    var m := entries[i].message;
    m.compaction.Some? ==>
      && IsSummary(m)
      && m.compaction.value.throughEntryID == (if i == 0 then "" else entries[i-1].id)
      && NoDuplicates(m.compaction.value.retainedEntryIDs)
      && forall r :: r in m.compaction.value.retainedEntryIDs ==> r in Ids(entries)[..i]
  }

  predicate SoundPath(entries: seq<Entry>) {
    && NoDuplicates(Ids(entries)) && "" !in Ids(entries)
    && forall i :: 0 <= i < |entries| ==> SoundCompaction(entries, i)
  }

  lemma PathIsSound(nodes: Nodes, id: Id)
    requires Sound(nodes) && Place(nodes, id)
    ensures SoundPath(EntriesAt(nodes, id))
  {
    PathShape(nodes, id);
    PathDistinct(nodes, id);
    var entries := EntriesAt(nodes, id);
    forall i | 0 <= i < |entries|
      ensures SoundCompaction(entries, i) && Ids(entries)[i] != ""
    {
      assert OnPath(nodes, entries, i);
      assert SoundNode(nodes, entries[i].id);
      if i > 0 { assert OnPath(nodes, entries, i - 1); }
      ChainUnfold(nodes, entries[i].id);
    }
  }

  lemma SoundPrefix(entries: seq<Entry>, n: nat)
    requires SoundPath(entries) && n <= |entries|
    ensures SoundPath(entries[..n])
  {
    assert Ids(entries[..n]) == Ids(entries)[..n];
    forall i | 0 <= i < n
      ensures SoundCompaction(entries[..n], i)
    {
      assert SoundCompaction(entries, i);
      assert Ids(entries[..n])[..i] == Ids(entries)[..i];
    }
  }

  // ---------- renaming ----------

  /** The new name of `id`, or "" when it has none yet. */
  function Identity(ids: seq<Id>, names: seq<Id>, id: Id): Id
    requires |ids| <= |names|
  {
    if ids == [] then ""
    else if ids[|ids|-1] == id then names[|ids|-1]
    else Identity(ids[..|ids|-1], names, id)
  }

  function Renamed(ids: seq<Id>, names: seq<Id>, retained: seq<Id>): (r: seq<Id>)
    requires |ids| <= |names|
    ensures |r| == |retained|
    ensures forall k :: 0 <= k < |r| ==> r[k] == Identity(ids, names, retained[k])
  {
    seq(|retained|, k requires 0 <= k < |retained| => Identity(ids, names, retained[k]))
  }

  function ForkedMessage(entries: seq<Entry>, names: seq<Id>, i: nat): Message
    requires i < |entries| <= |names|
  {
    var m, ids := entries[i].message, Ids(entries)[..i];
    if m.compaction.None? then m
    else m.(compaction := Some(Compaction(Identity(ids, names, m.compaction.value.throughEntryID),
                                          Renamed(ids, names, m.compaction.value.retainedEntryIDs))))
  }

  function ForkedEntry(entries: seq<Entry>, names: seq<Id>, i: nat): Entry
    requires i < |entries| <= |names|
  {
    Entry(names[i], if i == 0 then "" else names[i-1], i + 1, ForkedMessage(entries, names, i))
  }

  function Forked(entries: seq<Entry>, names: seq<Id>, n: nat): (f: seq<Entry>)
    requires n <= |entries| <= |names|
    ensures |f| == n
    ensures forall i :: 0 <= i < n ==> f[i] == ForkedEntry(entries, names, i)
  {
    seq(n, i requires 0 <= i < n => ForkedEntry(entries, names, i))
  }

  lemma {:induction false} IdentityAt(ids: seq<Id>, names: seq<Id>, j: nat)
    requires j < |ids| <= |names| && NoDuplicates(ids)
    ensures Identity(ids, names, ids[j]) == names[j]
  {
    var last := |ids| - 1;
    if j < last {
      assert ids[j] != ids[last];
      assert forall a, b :: 0 <= a < b < last ==> ids[..last][a] == ids[a] && ids[..last][b] == ids[b];
      IdentityAt(ids[..last], names, j);
    }
  }

  lemma {:induction false} IdentityMissing(ids: seq<Id>, names: seq<Id>, id: Id)
    requires |ids| <= |names| && id !in ids
    ensures Identity(ids, names, id) == ""
  {
    if ids != [] { IdentityMissing(ids[..|ids|-1], names, id); }
  }

  /** New names are given out once each and are never empty. */
  predicate UnusedNames(names: seq<Id>) {
    NoDuplicates(names) && "" !in names
  }

  lemma RenamedRetained(ids: seq<Id>, names: seq<Id>, retained: seq<Id>)
    requires |ids| <= |names| && NoDuplicates(ids) && UnusedNames(names) && NoDuplicates(retained)
    requires forall r :: r in retained ==> r in ids
    ensures NoDuplicates(Renamed(ids, names, retained))
    ensures forall r :: r in Renamed(ids, names, retained) ==> r in names[..|ids|]
  {
    var renamed := Renamed(ids, names, retained);
    forall k | 0 <= k < |retained|
      ensures exists j :: 0 <= j < |ids| && ids[j] == retained[k] && renamed[k] == names[j]
    {
      assert retained[k] in retained;
      var j :| 0 <= j < |ids| && ids[j] == retained[k];
      IdentityAt(ids, names, j);
    }
    forall a, b | 0 <= a < b < |retained|
      ensures renamed[a] != renamed[b]
    {
      var i :| 0 <= i < |ids| && ids[i] == retained[a] && renamed[a] == names[i];
      var j :| 0 <= j < |ids| && ids[j] == retained[b] && renamed[b] == names[j];
      assert i != j;
    }
    forall r | r in renamed
      ensures r in names[..|ids|]
    {
      var k :| 0 <= k < |renamed| && renamed[k] == r;
      var j :| 0 <= j < |ids| && ids[j] == retained[k] && renamed[k] == names[j];
      assert names[..|ids|][j] == r;
    }
  }

  // ---------- the copy means the same ----------

  /** Entry for entry the same to the model, and compacted in the same places. */
  predicate SameSeen(a: seq<Entry>, b: seq<Entry>) {
    |a| == |b| && forall i :: 0 <= i < |a| ==> SeenAlike(a[i].message, b[i].message)
  }

  predicate SeenAlike(a: Message, b: Message) {
    Project(a) == Project(b) && IsSummary(a) == IsSummary(b) && a.compaction.None? == b.compaction.None?
  }

  lemma {:induction false} SameLastSummary(a: seq<Entry>, b: seq<Entry>)
    requires SameSeen(a, b)
    ensures LastSummary(a) == LastSummary(b)
  {
    hide Project, IsSummary;
    if a != [] {
      SameLastSummary(a[..|a|-1], b[..|b|-1]);
    }
  }

  lemma SameSlices(a: seq<Entry>, b: seq<Entry>, start: nat)
    requires SameSeen(a, b) && start <= |a|
    ensures Projected(a[start..]) == Projected(b[start..])
    ensures start < |a| ==> Projected([a[start]]) == Projected([b[start]]) && a[start].message.compaction.None? == b[start].message.compaction.None?
  {
    hide Project, IsSummary;
  }

  lemma ForkedSeen(entries: seq<Entry>, names: seq<Id>)
    requires SoundPath(entries) && |entries| <= |names|
    ensures SameSeen(entries, Forked(entries, names, |entries|))
  {
    forall i | 0 <= i < |entries|
      ensures SeenAlike(entries[i].message, Forked(entries, names, |entries|)[i].message)
    {
      SameProjection(entries, names, i);
      hide Project, IsSummary, SoundPath, Identity, Renamed;
    }
  }

  lemma SameProjection(entries: seq<Entry>, names: seq<Id>, i: nat)
    requires SoundPath(entries) && i < |entries| <= |names|
    ensures Project(ForkedMessage(entries, names, i)) == Project(entries[i].message)
    ensures IsSummary(ForkedMessage(entries, names, i)) == IsSummary(entries[i].message)
  {
    assert SoundCompaction(entries, i);
    ProjectForgets(entries[i].message, ForkedMessage(entries, names, i).compaction);
  }

  lemma PickOne(before: seq<Entry>, copy: seq<Entry>, names: seq<Id>, id: Id)
    requires |before| == |copy| <= |names| && NoDuplicates(Ids(before)) && NoDuplicates(Ids(copy))
    requires forall i :: 0 <= i < |copy| ==> copy[i].id == names[i]
    requires id in Ids(before)
    ensures exists j :: 0 <= j < |before| && Find(before, id) == Some(before[j])
                        && Find(copy, Identity(Ids(before), names, id)) == Some(copy[j])
  {
    var j :| 0 <= j < |before| && Ids(before)[j] == id;
    IdentityAt(Ids(before), names, j);
    FindAt(before, j);
    FindAt(copy, j);
  }

  /** Looking up renamed references among renamed entries finds the copies of what the
      original references find. */
  lemma {:induction false} PickRenamed(before: seq<Entry>, copy: seq<Entry>, names: seq<Id>, retained: seq<Id>)
    requires |before| == |copy| <= |names| && NoDuplicates(Ids(before)) && NoDuplicates(Ids(copy))
    requires forall i :: 0 <= i < |copy| ==> copy[i].id == names[i] && Project(copy[i].message) == Project(before[i].message)
    requires forall r :: r in retained ==> r in Ids(before)
    ensures Projected(Pick(copy, Renamed(Ids(before), names, retained))) == Projected(Pick(before, retained))
    decreases |retained|
  {
    var renamed := Renamed(Ids(before), names, retained);
    if retained != [] {
      var front, last := retained[..|retained|-1], retained[|retained|-1];
      assert last in retained && forall r :: r in front ==> r in retained;
      assert renamed[..|renamed|-1] == Renamed(Ids(before), names, front);
      hide Project, Identity;
      PickRenamed(before, copy, names, front);
      PickOne(before, copy, names, last);
      var j :| 0 <= j < |before| && Find(before, last) == Some(before[j])
               && Find(copy, Identity(Ids(before), names, last)) == Some(copy[j]);
      ProjectedMore(Pick(before, front), before[j]);
      ProjectedMore(Pick(copy, Renamed(Ids(before), names, front)), copy[j]);
    }
  }

  lemma SameThreeParts(a: seq<Entry>, b: seq<Entry>, c: seq<Entry>, a': seq<Entry>, b': seq<Entry>, c': seq<Entry>)
    requires Projected(a) == Projected(a') && Projected(b) == Projected(b') && Projected(c) == Projected(c')
    ensures Projected(a + b + c) == Projected(a' + b' + c')
  {
    hide Project;
    var x, y := a + b + c, a' + b' + c';
    assert |a| == |a'| && |b| == |b'| && |c| == |c'|;
    forall i | 0 <= i < |x|
      ensures Projected(x)[i] == Projected(y)[i]
    {
      if i < |a| {
        assert Projected(a)[i] == Projected(a')[i];
      } else if i < |a| + |b| {
        assert Projected(b)[i - |a|] == Projected(b')[i - |a|];
      } else {
        assert Projected(c)[i - |a| - |b|] == Projected(c')[i - |a| - |b|];
      }
    }
  }

  lemma SameContext(entries: seq<Entry>, copy: seq<Entry>, names: seq<Id>)
    requires SoundPath(entries) && |entries| == |copy| <= |names| && UnusedNames(names)
    requires copy == Forked(entries, names, |entries|)
    ensures HistoryOf(copy) == HistoryOf(entries)
  {
    hide SoundPath, UnusedNames, SameSeen, LastSummary, Pick;
    ForkedSeen(entries, names);
    SameLastSummary(entries, copy);
    var start := LastSummary(entries);
    SameSlices(entries, copy, start);
    if entries != [] && entries[start].message.compaction.Some? {
      SameSlices(entries, copy, start + 1);
      SameRetained(entries, copy, names, start);
      hide *;
      SameThreeParts([entries[start]], Pick(entries[..start], entries[start].message.compaction.value.retainedEntryIDs), entries[start+1..],
                     [copy[start]], Pick(copy[..start], copy[start].message.compaction.value.retainedEntryIDs), copy[start+1..]);
    }
  }

  lemma SameRetained(entries: seq<Entry>, copy: seq<Entry>, names: seq<Id>, start: nat)
    requires SoundPath(entries) && |entries| == |copy| <= |names| && UnusedNames(names)
    requires copy == Forked(entries, names, |entries|) && start < |entries| && entries[start].message.compaction.Some?
    ensures copy[start].message.compaction.Some?
    ensures Projected(Pick(copy[..start], copy[start].message.compaction.value.retainedEntryIDs))
            == Projected(Pick(entries[..start], entries[start].message.compaction.value.retainedEntryIDs))
  {
    var before, copied := entries[..start], copy[..start];
    assert SoundCompaction(entries, start);
    assert Ids(before) == Ids(entries)[..start] && Ids(copied) == names[..start];
    forall i | 0 <= i < start
      ensures copied[i].id == names[i] && Project(copied[i].message) == Project(before[i].message)
    {
      SameProjection(entries, names, i);
    }
    PickRenamed(before, copied, names, entries[start].message.compaction.value.retainedEntryIDs);
  }

  /** The copied branch gives the model exactly the history the original gave at that entry. */
  lemma ForkKeepsHistory(nodes: Nodes, head: Id, through: nat, names: seq<Id>)
    requires Sound(nodes) && Place(nodes, head) && UnusedNames(names)
    requires through < |EntriesAt(nodes, head)| <= |names|
    ensures var entries := EntriesAt(nodes, head);
            && entries[through].id in nodes
            && HistoryOf(Forked(entries, names, through + 1)) == HistoryOf(EntriesAt(nodes, entries[through].id))
  {
    PathPrefix(nodes, head, through);
    PathIsSound(nodes, head);
    PrefixKeepsHistory(EntriesAt(nodes, head), names, through + 1);
  }

  lemma PathPrefix(nodes: Nodes, head: Id, i: nat)
    requires Tree(nodes) && Place(nodes, head) && i < |EntriesAt(nodes, head)|
    ensures var entries := EntriesAt(nodes, head);
            entries[i].id in nodes && EntriesAt(nodes, entries[i].id) == entries[..i+1]
  {
    PathShape(nodes, head);
    assert OnPath(nodes, EntriesAt(nodes, head), i);
  }

  lemma PrefixKeepsHistory(entries: seq<Entry>, names: seq<Id>, n: nat)
    requires SoundPath(entries) && n <= |entries| <= |names| && UnusedNames(names)
    ensures HistoryOf(Forked(entries, names, n)) == HistoryOf(entries[..n])
  {
    hide *;
    SoundPrefix(entries, n);
    ForkedPrefix(entries, names, n);
    SameContext(entries[..n], Forked(entries, names, n), names);
  }

  lemma ForkedPrefix(entries: seq<Entry>, names: seq<Id>, n: nat)
    requires n <= |entries| <= |names|
    ensures Forked(entries[..n], names, n) == Forked(entries, names, n)
  {
    forall i | 0 <= i < n
      ensures ForkedEntry(entries[..n], names, i) == ForkedEntry(entries, names, i)
    {
      assert Ids(entries[..n])[..i] == Ids(entries)[..i];
    }
    hide ForkedEntry;
  }

  /** The one kind of branch that cannot be copied does occur: an empty ledger accepts a
      compaction, whose boundary is then no entry at all. */
  lemma EmptyLedgerAcceptsCompaction(id: Id, runID: string)
    requires ValidEntryID(id)
    ensures var m := Message(Some(Compaction("", [])), Assistant, [TextBlock("s").(kind := "summary")], false, runID, "", "", nothingCarried);
            && AppendCheck(map[], "", id, m).None?
            && Identity([], [], m.compaction.value.throughEntryID) == ""
  {
    var m := Message(Some(Compaction("", [])), Assistant, [TextBlock("s").(kind := "summary")], false, runID, "", "", nothingCarried);
    assert m.blocks[0].kind == "summary" && m.blocks[0] in m.blocks;
    assert Trimming.TrimSpace("s") == "s" by { Trimming.TightStays("s"); }
    assert BlockAllowed(Assistant, m.blocks[0]);
    assert Chain(map[], "") == [];
  }

  // ---------- making the copy ----------

  /** The nodes copied so far, in order and by identity, and the last of them. */
  datatype Copied = Copied(log: seq<Node>, nodes: Nodes, parent: Id)

  /** The nodes written so far: `n` of them, numbered from 1, under the first `n` names. */
  predicate CopyNumbered(names: seq<Id>, n: nat, log: seq<Node>, cloned: Nodes)
    requires n <= |names|
  {
    && cloned == NodesOf(log)
    && |log| == n && (forall i :: 0 <= i < n ==> log[i].seqNo == i + 1)
    && (forall id :: id in cloned ==> cloned[id].seqNo <= n && id in names[..n])
  }

  /** The copy after `n` entries: a sound ledger whose only path is the renamed branch. */
  predicate CopiedUpTo(entries: seq<Entry>, names: seq<Id>, n: nat, copied: Copied)
    requires n <= |entries| <= |names|
  {
    var Copied(log, cloned, parent) := copied;
    && CopyNumbered(names, n, log, cloned)
    && Sound(cloned) && Place(cloned, parent)
    && parent == (if n == 0 then "" else names[n-1])
    && EntriesAt(cloned, parent) == Forked(entries, names, n)
    && Chain(cloned, parent) == names[..n]
  }

  function Add(copied: Copied, node: Node): Copied {
    Copied(copied.log + [node], copied.nodes[node.id := node], node.id)
  }

  lemma NumberedStep(names: seq<Id>, n: nat, log: seq<Node>, cloned: Nodes, node: Node)
    requires UnusedNames(names) && n < |names| && CopyNumbered(names, n, log, cloned)
    requires node.id == names[n] && node.seqNo == n + 1
    ensures CopyNumbered(names, n + 1, log + [node], cloned[node.id := node]) && node.id !in cloned && node.id != ""
  {
    assert names[n] in names && names[n] !in names[..n];
    assert (log + [node])[..n] == log;
    assert names[..n+1] == names[..n] + [names[n]];
  }

  lemma CopyStep(entries: seq<Entry>, names: seq<Id>, n: nat, copied: Copied)
    requires SoundPath(entries) && UnusedNames(names) && n < |entries| <= |names|
    requires CopiedUpTo(entries, names, n, copied)
    requires n == 0 ==> entries[0].message.compaction.None?
    ensures CopiedUpTo(entries, names, n + 1, Add(copied, Node(names[n], copied.parent, n + 1, ForkedMessage(entries, names, n))))
  {
    hide SoundPath, UnusedNames, ForkedMessage, ForkedEntry, CopyNumbered, EntriesAt, Chain, IsSummary, RetainedOk;
    var Copied(log, cloned, parent) := copied;
    var node := Node(names[n], parent, n + 1, ForkedMessage(entries, names, n));
    NumberedStep(names, n, log, cloned, node);
    ParentOlder(names, n, log, cloned, parent);
    CopyStepSound(entries, names, n, cloned, parent);
    NewLeafSound(cloned, node);
    GrownPath(cloned, node);
    ForkedMore(entries, names, n, node);
    assert names[..n+1] == names[..n] + [names[n]];
  }

  lemma ParentOlder(names: seq<Id>, n: nat, log: seq<Node>, cloned: Nodes, parent: Id)
    requires n <= |names| && CopyNumbered(names, n, log, cloned)
    ensures Age(cloned, parent) <= n
  {}

  lemma ForkedMore(entries: seq<Entry>, names: seq<Id>, n: nat, node: Node)
    requires n < |entries| <= |names|
    requires node == Node(names[n], if n == 0 then "" else names[n-1], n + 1, ForkedMessage(entries, names, n))
    ensures Forked(entries, names, n + 1) == Forked(entries, names, n) + [EntryOf(node)]
  {
    hide ForkedMessage;
  }

  lemma CopyStepSound(entries: seq<Entry>, names: seq<Id>, n: nat, cloned: Nodes, parent: Id)
    requires SoundPath(entries) && UnusedNames(names) && n < |entries| <= |names|
    requires Tree(cloned) && Place(cloned, parent) && Chain(cloned, parent) == names[..n]
    requires parent == (if n == 0 then "" else names[n-1])
    requires n == 0 ==> entries[0].message.compaction.None?
    ensures var m := ForkedMessage(entries, names, n);
            m.compaction.Some? ==>
              IsSummary(m) && m.compaction.value.throughEntryID == parent && RetainedOk(cloned, parent, m.compaction.value.retainedEntryIDs)
  {
    var ids := Ids(entries)[..n];
    assert SoundCompaction(entries, n);
    assert NoDuplicates(ids);
    if entries[n].message.compaction.Some? {
      IdentityAt(ids, names, n - 1);
      RenamedRetained(ids, names, entries[n].message.compaction.value.retainedEntryIDs);
    }
  }

  method FindThrough(entries: seq<Entry>, throughEntryID: Id) returns (through: Option<nat>)
    ensures through.None? <==> throughEntryID !in Ids(entries)
    ensures through.Some? ==> through.value < |entries| && entries[through.value].id == throughEntryID
  {
    for index := 0 to |entries|
      invariant forall k :: 0 <= k < index ==> Ids(entries)[k] != throughEntryID
    {
      if entries[index].id == throughEntryID {
        assert Ids(entries)[index] == throughEntryID;
        return Some(index);
      }
    }
    return None;
  }

  /** The references of one compaction under their new names, or the first one that has none. */
  method MapCompaction(original: Compaction, identities: map<Id, Id>, ghost ids: seq<Id>, ghost names: seq<Id>)
    returns (r: Result<Compaction, ForkError>)
    requires |ids| <= |names| && KnownNames(identities, ids, names)
    ensures Identity(ids, names, original.throughEntryID) == "" ==> r == Err(InvalidBoundary)
    ensures Identity(ids, names, original.throughEntryID) != "" ==>
              if "" in Renamed(ids, names, original.retainedEntryIDs) then r == Err(InvalidReference)
              else r == Ok(Compaction(Identity(ids, names, original.throughEntryID), Renamed(ids, names, original.retainedEntryIDs)))
  {
    var through := if original.throughEntryID in identities then identities[original.throughEntryID] else "";
    if through == "" { return Err(InvalidBoundary); }
    var mapped: seq<Id> := [];
    var retained := original.retainedEntryIDs;
    ghost var renamed := Renamed(ids, names, retained);
    for i := 0 to |retained|
      invariant mapped == renamed[..i] && "" !in renamed[..i]
    {
      var id := if retained[i] in identities then identities[retained[i]] else "";
      assert id == renamed[i];
      if id == "" {
        return Err(InvalidReference);
      }
      mapped := mapped + [id];
      assert renamed[..i+1] == renamed[..i] + [renamed[i]];
    }
    assert renamed[..|retained|] == renamed;
    return Ok(Compaction(through, mapped));
  }

  lemma NamesGiven(entries: seq<Entry>, names: seq<Id>, n: nat)
    requires SoundPath(entries) && UnusedNames(names) && n < |entries| <= |names| && entries[n].message.compaction.Some?
    ensures var ids, c := Ids(entries)[..n], entries[n].message.compaction.value;
            && (Identity(ids, names, c.throughEntryID) == "" <==> n == 0)
            && "" !in Renamed(ids, names, c.retainedEntryIDs)
  {
    var ids := Ids(entries)[..n];
    assert SoundCompaction(entries, n);
    assert NoDuplicates(ids);
    if n == 0 {
      IdentityMissing(ids, names, "");
    } else {
      IdentityAt(ids, names, n - 1);
      assert names[n-1] in names;
    }
    RenamedRetained(ids, names, entries[n].message.compaction.value.retainedEntryIDs);
  }

  ghost predicate KnownNames(identities: map<Id, Id>, ids: seq<Id>, names: seq<Id>)
    requires |ids| <= |names|
  {
    forall id :: (if id in identities then identities[id] else "") == Identity(ids, names, id)
  }

  /** `Fork`, up to registering the copy: it fails on a reference only when the branch starts with
      a compaction, that is one written into an empty ledger; otherwise the copy's history is the
      source's history at the chosen entry. */
  method ForkBranch(source: Session, throughEntryID: Id, names: seq<Id>) returns (r: Result<Session, ForkError>)
    requires source.Valid() && UnusedNames(names) && |EntriesAt(source.nodes, source.head)| <= |names|
    ensures var entries := EntriesAt(source.nodes, source.head);
            match r
            case Err(e) =>
              if throughEntryID !in Ids(entries) then e == NotInBranch
              else e == InvalidBoundary && entries[0].message.compaction.Some?
            case Ok(copy) =>
              && throughEntryID in Ids(entries) && entries[0].message.compaction.None?
              && copy.Valid() && throughEntryID in source.nodes
              && copy.next == |EntriesAt(source.nodes, throughEntryID)| && copy.next <= |names|
              && Chain(copy.nodes, copy.head) == names[..copy.next]
              && HistoryOf(EntriesAt(copy.nodes, copy.head)) == HistoryOf(EntriesAt(source.nodes, throughEntryID))
  {
    var entries := source.Entries();
    PathIsSound(source.nodes, source.head);
    var found := FindThrough(entries, throughEntryID);
    if found.None? { return Err(NotInBranch); }
    var through := found.value;
    var copied := CopyEntries(entries, through, names);
    if copied.Err? { return Err(copied.error); }
    var copy := new Session.Made(copied.value.nodes, copied.value.parent, copied.value.log);
    ForkKeepsHistory(source.nodes, source.head, through, names);
    PathPrefix(source.nodes, source.head, through);
    return Ok(copy);
  }

  /** The message of entry `index` with its references renamed. */
  method RenameMessage(entries: seq<Entry>, index: nat, names: seq<Id>, identities: map<Id, Id>) returns (r: Result<Message, ForkError>)
    requires SoundPath(entries) && UnusedNames(names) && index < |entries| <= |names|
    requires KnownNames(identities, Ids(entries)[..index], names)
    ensures r == if index == 0 && entries[0].message.compaction.Some? then Err(InvalidBoundary)
                 else Ok(ForkedMessage(entries, names, index))
  {
    var message := entries[index].message;
    if message.compaction.None? { return Ok(message); }
    NamesGiven(entries, names, index);
    hide Identity, SoundPath, KnownNames;
    var mapped := MapCompaction(message.compaction.value, identities, Ids(entries)[..index], names);
    if mapped.Err? { return Err(mapped.error); }
    return Ok(message.(compaction := Some(mapped.value)));
  }

  lemma NameGiven(entries: seq<Entry>, names: seq<Id>, index: nat, identities: map<Id, Id>)
    requires index < |entries| <= |names| && KnownNames(identities, Ids(entries)[..index], names)
    ensures KnownNames(identities[entries[index].id := names[index]], Ids(entries)[..index+1], names)
  {
    var ids := Ids(entries)[..index+1];
    assert ids[..index] == Ids(entries)[..index] && ids[index] == entries[index].id;
    forall id
      ensures Identity(ids, names, id) == if ids[index] == id then names[index] else Identity(ids[..index], names, id)
    {}
  }

  method CopyEntries(entries: seq<Entry>, through: nat, names: seq<Id>) returns (r: Result<Copied, ForkError>)
    requires SoundPath(entries) && UnusedNames(names) && through < |entries| <= |names|
    ensures if entries[0].message.compaction.Some? then r == Err(InvalidBoundary)
            else r.Ok? && CopiedUpTo(entries, names, through + 1, r.value)
  {
    var copied := Copied([], map[], "");
    var identities: map<Id, Id> := map[];
    assert CopiedUpTo(entries, names, 0, copied);
    for index := 0 to through + 1
      invariant CopiedUpTo(entries, names, index, copied)
      invariant KnownNames(identities, Ids(entries)[..index], names)
      invariant index > 0 ==> entries[0].message.compaction.None?
    {
      hide *;
      var message := RenameMessage(entries, index, names, identities);
      if message.Err? { return Err(message.error); }
      CopyStep(entries, names, index, copied);
      NameGiven(entries, names, index, identities);
      identities := identities[entries[index].id := names[index]];
      copied := AddNode(copied, Node(names[index], copied.parent, index + 1, message.value));
    }
    return Ok(copied);
  }

  method AddNode(copied: Copied, node: Node) returns (more: Copied)
    ensures more == Add(copied, node)
  {
    return Copied(copied.log + [node], copied.nodes[node.id := node], node.id);
  }
}
