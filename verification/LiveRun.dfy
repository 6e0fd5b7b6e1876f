/** The drafts and the update counter of one live run (internal/runner/emit.go). */
module LiveRun {
  import opened Basics
  import opened Messages
  import opened Ledger
  import opened RunUpdates
  import Trimming

  datatype LiveState = LiveState(updateSeq: nat, drafts: map<Id, Draft>, persisted: set<Id>, afterEntrySeq: nat, outputAfterSeq: nat)

  /** The state after an operation, and the update it numbered, if any. */
  datatype Moved = Moved(run: LiveState, update: Option<Update>)

  /** A draft needs an entry to belong to. */
  datatype EmitError = NoEntryID

  /** `startDraft`. */
  function StartDraftOf(l: LiveState, id: Id): Moved {
    if id == "" || id in l.persisted then Moved(l, None)
    else
      var drafts := if id in l.drafts then l.drafts else l.drafts[id := Draft(id, l.outputAfterSeq, [])];
      Moved(l.(drafts := drafts, updateSeq := l.updateSeq + 1), Some(Started(id, drafts[id].afterEntrySeq)))
  }

  /** `applyDelta`. */
  function DeltaOf(l: LiveState, id: Id, kind: string, text: string, blockSeq: nat): Moved {
    if id == "" || id in l.persisted then Moved(l, None)
    else
      var drafts := if id in l.drafts && text != ""
                    then l.drafts[id := l.drafts[id].(blocks := DraftText(l.drafts[id].blocks, kind, text, blockSeq))]
                    else l.drafts;
      var after := if id in drafts then drafts[id].afterEntrySeq else l.afterEntrySeq;
      Moved(l.(drafts := drafts, updateSeq := l.updateSeq + 1), Some(Delta(id, kind, text, blockSeq, after)))
  }

  /** A message that has reached the ledger: its draft is over and the update is numbered. */
  function LandedOf(l: LiveState, e: Entry): Moved {
    Moved(l.(drafts := l.drafts - {e.id}, persisted := l.persisted + {e.id}, updateSeq := l.updateSeq + 1), Some(Landed(e)))
  }

  /** `liveEvent` for an update that touches no draft. */
  function NumberedOf(l: LiveState, u: Update): Moved {
    Moved(l.(updateSeq := l.updateSeq + 1), Some(u))
  }

  /** The position an assistant message is anchored at. */
  function Anchored(l: LiveState, id: Id, m: Message): Message {
    if m.role == Assistant && m.carried.afterSeq == 0 then
      m.(carried := m.carried.(afterSeq := if id in l.drafts then l.drafts[id].afterEntrySeq else l.outputAfterSeq))
    else m
  }

  /** No draft's identity is in the ledger yet. */
  predicate Writable(drafts: map<Id, Draft>, nodes: Nodes) {
    forall id :: id in drafts ==> ValidEntryID(id) && id !in nodes
  }

  /** What is left of the drafts is unchanged; a visited one that is left holds something. */
  predicate OnlyKept(before: map<Id, Draft>, visited: set<Id>, drafts: map<Id, Draft>) {
    && (forall id :: id in drafts ==> id in before && drafts[id] == before[id])
    && (forall id :: id in before && id !in visited ==> id in drafts)
    && (forall id :: id in drafts && id in visited ==> !Silent(before[id]))
  }

  /** No text or reasoning in it. */
  predicate Silent(draft: Draft) {
    forall i :: 0 <= i < |draft.blocks| ==> !Speaks(draft.blocks[i])
  }

  /** Every draft that went held nothing or stands among the entries written. */
  ghost predicate NoneForgotten(runID: string, before: map<Id, Draft>, drafts: map<Id, Draft>, landed: seq<Entry>) {
    forall id :: id in before && id !in drafts ==> Silent(before[id]) || Written(runID, id, before[id], landed)
  }

  ghost predicate Written(runID: string, id: Id, draft: Draft, landed: seq<Entry>) {
    exists e :: e in landed && HoldsDraft(runID, id, draft, e)
  }

  /** The entry is the unfinished message of the draft: every block that says something, in its order, each once
      and nothing else, so that no word is lost; under the draft's identity and at its anchor. */
  ghost predicate HoldsDraft(runID: string, id: Id, draft: Draft, e: Entry) {
    && e.id == id && e.message.role == Assistant && e.message.incomplete && e.message.compaction.None?
    && e.message.runID == runID && e.message.carried.afterSeq == draft.afterEntrySeq
    && Sifted(Speaks, draft.blocks, e.message.blocks)
    && ((forall i :: 0 <= i < |draft.blocks| ==> TidyBlock(draft.blocks[i])) ==> Said(e.message.blocks) == Said(draft.blocks))
  }

  /** Nothing but drafts is written, each as itself. */
  ghost predicate OnlyDrafts(runID: string, before: map<Id, Draft>, landed: seq<Entry>) {
    forall e :: e in landed ==> e.id in before && HoldsDraft(runID, e.id, before[e.id], e)
  }

  lemma IncompleteHolds(runID: string, id: Id, draft: Draft, e: Entry)
    requires e.id == id && e.message == IncompleteMessage(draft, runID)
    ensures HoldsDraft(runID, id, draft, e)
  {
    IncompleteKeeps(draft.blocks);
    if forall i :: 0 <= i < |draft.blocks| ==> TidyBlock(draft.blocks[i]) { NoWordLost(draft.blocks); }
  }

  lemma SilentDraft(draft: Draft)
    ensures Silent(draft) <==> Incomplete(draft.blocks) == []
  {
    SilentIsDropped(draft.blocks);
  }

  /** One more draft has been visited: dropped without content, written, or kept. */
  lemma VisitKeeps(runID: string, before: map<Id, Draft>, visited: set<Id>, was: map<Id, Draft>, drafts: map<Id, Draft>,
                   id: Id, landed: seq<Entry>, out: seq<Entry>)
    requires OnlyKept(before, visited, was) && NoneForgotten(runID, before, was, landed) && id in was
    requires drafts == was - {id} || (drafts == was && !Silent(was[id]))
    requires id !in drafts ==> Silent(was[id]) || Written(runID, id, was[id], out)
    ensures OnlyKept(before, visited + {id}, drafts) && NoneForgotten(runID, before, drafts, landed + out)
  {
    hide Silent, HoldsDraft;
    forall x | x in before && x !in drafts
      ensures Silent(before[x]) || Written(runID, x, before[x], landed + out)
    {
      if x != id && !Silent(before[x]) {
        var e :| e in landed && HoldsDraft(runID, x, before[x], e);
        assert e in landed + out;
      } else if !Silent(before[x]) {
        var e :| e in out && HoldsDraft(runID, x, before[x], e);
        assert e in landed + out;
      }
    }
  }

  class Run {
    const sessionID: string
    const epoch: string
    const runID: string
    var updateSeq: nat
    var drafts: map<Id, Draft>
    var persisted: set<Id>
    var afterEntrySeq: nat
    var outputAfterSeq: nat

    ghost function View(): LiveState
      reads this
    {
      LiveState(updateSeq, drafts, persisted, afterEntrySeq, outputAfterSeq)
    }

    ghost function Numbered(u: Option<Update>, seqNo: nat): Option<Event> {
      if u.None? then None else Some(Event(sessionID, epoch, seqNo, u.value))
    }

    constructor (sessionID: string, epoch: string, runID: string, clock: nat)
      ensures View() == LiveState(clock, map[], {}, 0, 0)
      ensures this.sessionID == sessionID && this.epoch == epoch && this.runID == runID
    {
      this.sessionID, this.epoch, this.runID := sessionID, epoch, runID;
      updateSeq, drafts, persisted, afterEntrySeq, outputAfterSeq := clock, map[], {}, 0, 0;
    }

    /** A message starts: its draft is anchored behind the run's latest output, one that is there already
        stays as it is, and no other draft changes. */
    method StartDraft(id: Id) returns (r: Result<Option<Event>, EmitError>)
      modifies this
      ensures var m := StartDraftOf(old(View()), id);
              View() == m.run && r == (if id == "" then Err(NoEntryID) else Ok(Numbered(m.update, updateSeq)))
      ensures id == "" || id in old(persisted) ==> View() == old(View()) && (r.Ok? ==> r.value.None?)
      ensures id != "" && id !in old(persisted) ==>
                && updateSeq == old(updateSeq) + 1 && id in drafts && drafts - {id} == old(drafts) - {id}
                && drafts[id] == (if id in old(drafts) then old(drafts)[id] else Draft(id, outputAfterSeq, []))
                && r == Ok(Some(Event(sessionID, epoch, updateSeq, Started(id, drafts[id].afterEntrySeq))))
    {
      if id == "" { return Err(NoEntryID); }
      if id in persisted { return Ok(None); }
      if id !in drafts {
        drafts := drafts[id := Draft(id, outputAfterSeq, [])];
      }
      updateSeq := updateSeq + 1;
      return Ok(Some(Event(sessionID, epoch, updateSeq, Started(id, drafts[id].afterEntrySeq))));
    }

    /** A delta adds its text at its block, takes a number even when it adds nothing, and changes no other
        draft; one for a message that has landed is dropped without a number. */
    method ApplyDelta(id: Id, kind: string, text: string, blockSeq: nat) returns (r: Result<Option<Event>, EmitError>)
      modifies this
      ensures var m := DeltaOf(old(View()), id, kind, text, blockSeq);
              View() == m.run && r == (if id == "" then Err(NoEntryID) else Ok(Numbered(m.update, updateSeq)))
      ensures id == "" || id in old(persisted) ==> View() == old(View()) && (r.Ok? ==> r.value.None?)
      ensures id != "" && id !in old(persisted) ==>
                && updateSeq == old(updateSeq) + 1 && drafts - {id} == old(drafts) - {id}
                && r.Ok? && r.value.Some? && r.value.value.updateSeq == updateSeq
      ensures id in old(drafts) && id != "" && id !in old(persisted) && text != "" && blockSeq > 0 ==>
                && id in drafts && blockSeq <= |drafts[id].blocks| && drafts[id].afterEntrySeq == old(drafts)[id].afterEntrySeq
                && drafts[id].blocks[blockSeq-1].text == BlockAt(old(drafts)[id].blocks, blockSeq - 1).text + text
    {
      if id == "" { return Err(NoEntryID); }
      if id in persisted { return Ok(None); }
      var after := afterEntrySeq;
      if id in drafts {
        var draft := drafts[id];
        if text != "" {
          var blocks := ApplyDraftText(draft.blocks, kind, text, blockSeq);
          drafts := drafts[id := draft.(blocks := blocks)];
        }
        after := draft.afterEntrySeq;
      }
      updateSeq := updateSeq + 1;
      return Ok(Some(Event(sessionID, epoch, updateSeq, Delta(id, kind, text, blockSeq, after))));
    }

    method LiveEvent(u: Update) returns (out: Event)
      modifies this
      ensures View() == NumberedOf(old(View()), u).run && out == Event(sessionID, epoch, updateSeq, u)
    {
      updateSeq := updateSeq + 1;
      return Event(sessionID, epoch, updateSeq, u);
    }

    /** `persistLoopMessage`: the ledger grows and the update is numbered together, or neither; a message
        without an identity gets the one drawn for it. */
    method PersistLoopMessage(sess: Session, given: Id, drawn: Id, message: Message) returns (r: Result<Option<Event>, AppendError>)
      requires sess.Valid()
      modifies this, sess
      ensures sess.Valid()
      ensures var id := if given == "" then drawn else given;
              var m := Anchored(old(View()), id, message.(runID := runID));
              if id in old(persisted) then
                r == Ok(None) && View() == old(View()) && sess.nodes == old(sess.nodes) && sess.head == old(sess.head)
              else
                match AppendCheck(old(sess.nodes), old(sess.head), id, m)
                case Some(e) => r == Err(e) && View() == old(View()) && sess.nodes == old(sess.nodes) && sess.head == old(sess.head)
                case None =>
                  && sess.head == id
                  && exists e: Entry :: e.id == id && e.message == m
                       && EntriesAt(sess.nodes, sess.head) == EntriesAt(old(sess.nodes), old(sess.head)) + [e]
                       && View() == LandedOf(old(View()), e).run && r == Ok(Some(Event(sessionID, epoch, updateSeq, Landed(e))))
      ensures r.Ok? && r.value.Some? ==>
                var id := if given == "" then drawn else given;
                && drafts == old(drafts) - {id} && persisted == old(persisted) + {id} && updateSeq == old(updateSeq) + 1
                && afterEntrySeq == old(afterEntrySeq) && outputAfterSeq == old(outputAfterSeq)
    {
      var id := given;
      if id == "" { id := drawn; }
      if id in persisted { return Ok(None); }
      var m := message.(runID := runID);
      if m.role == Assistant && m.carried.afterSeq == 0 {
        m := m.(carried := m.carried.(afterSeq := if id in drafts then drafts[id].afterEntrySeq else outputAfterSeq));
      }
      hide ValidMessage;
      var entry := sess.AppendID(id, m);
      hide *;
      if entry.Err? { return Err(entry.error); }
      drafts := drafts - {id};
      persisted := persisted + {id};
      updateSeq := updateSeq + 1;
      return Ok(Some(Event(sessionID, epoch, updateSeq, Landed(entry.value))));
    }

    /** One draft of the loop in `persistOpenDrafts`: dropped when it holds nothing, written as an incomplete
        message when the ledger takes it, and otherwise kept. */
    method PersistDraft(sess: Session, id: Id, diskWorks: bool) returns (out: Option<Entry>)
      requires sess.Valid() && id in drafts
      modifies this, sess
      ensures sess.Valid() && updateSeq == old(updateSeq) + if out.Some? then 1 else 0
      ensures out.None? ==> EntriesAt(sess.nodes, sess.head) == EntriesAt(old(sess.nodes), old(sess.head))
      ensures out.None? && Incomplete(old(drafts)[id].blocks) == [] ==> View() == old(View()).(drafts := old(drafts) - {id})
      ensures out.None? && Incomplete(old(drafts)[id].blocks) != [] ==> View() == old(View())
      ensures out.Some? ==>
                && Incomplete(old(drafts)[id].blocks) != []
                && out.value.id == id && out.value.message == IncompleteMessage(old(drafts)[id], runID)
                && EntriesAt(sess.nodes, sess.head) == EntriesAt(old(sess.nodes), old(sess.head)) + [out.value]
                && View() == LandedOf(old(View()), out.value).run
      ensures out.Some? ==> drafts == old(drafts) - {id}
      ensures persisted == old(persisted) + if out.Some? then {id} else {}
      ensures diskWorks && Writable(old(drafts), old(sess.nodes)) ==> drafts == old(drafts) - {id} && Writable(drafts, sess.nodes)
    {
      var draft := drafts[id];
      var blocks := IncompleteFromDraft(draft);
      if blocks == [] {
        drafts := drafts - {id};
        return None;
      }
      if !diskWorks { return None; }
      var message := Message(None, Assistant, blocks, true, runID, "", "", nothingCarried.(afterSeq := draft.afterEntrySeq));
      IncompleteAccepted(draft, runID);
      hide EntriesAt, Tree, Place, SoundNode, ValidMessage, Incomplete;
      var entry := sess.AppendID(id, message);
      if entry.Err? { return None; }
      drafts := drafts - {id};
      persisted := persisted + {id};
      updateSeq := updateSeq + 1;
      return Some(entry.value);
    }

    /** `persistOpenDrafts`: what cannot be written stays a draft, what is written is numbered in the order
        in which the entries stand in the ledger, and no text is forgotten; when every write works no draft
        is left. */
    method PersistOpenDrafts(sess: Session, diskWorks: Id -> bool) returns (landed: seq<Entry>, numbers: seq<nat>)
      requires sess.Valid()
      modifies this, sess
      ensures sess.Valid() && updateSeq == old(updateSeq) + |landed|
      ensures |numbers| == |landed| && forall i :: 0 <= i < |numbers| ==> numbers[i] == old(updateSeq) + i + 1
      ensures EntriesAt(sess.nodes, sess.head) == EntriesAt(old(sess.nodes), old(sess.head)) + landed
      ensures OnlyKept(old(drafts), old(drafts).Keys, drafts)
      ensures NoneForgotten(runID, old(drafts), drafts, landed) && OnlyDrafts(runID, old(drafts), landed)
      ensures old(persisted) <= persisted && forall e :: e in landed ==> e.id in persisted
      ensures Writable(old(drafts), old(sess.nodes)) && (forall id :: id in old(drafts) ==> diskWorks(id)) ==> drafts == map[]
    {
      hide Tree, Place, SoundNode, NodesOf, EntriesAt, Writable, ValidMessage, LandedOf, IncompleteMessage, Incomplete, HoldsDraft, Silent;
      landed, numbers := [], [];
      var ids := drafts.Keys;
      ghost var start, first, before := EntriesAt(sess.nodes, sess.head), updateSeq, drafts;
      ghost var allWork := Writable(drafts, sess.nodes) && forall id :: id in drafts ==> diskWorks(id);
      while ids != {}
        invariant sess.Valid() && ids <= before.Keys && updateSeq == first + |landed|
        invariant OnlyKept(before, before.Keys - ids, drafts)
        invariant NoneForgotten(runID, before, drafts, landed) && OnlyDrafts(runID, before, landed)
        invariant old(persisted) <= persisted && forall e :: e in landed ==> e.id in persisted
        invariant allWork ==> Writable(drafts, sess.nodes) && drafts.Keys <= ids
        invariant |numbers| == |landed| && forall i :: 0 <= i < |numbers| ==> numbers[i] == first + i + 1
        invariant EntriesAt(sess.nodes, sess.head) == start + landed
        decreases ids
      {
        var id :| id in ids;
        ghost var now := drafts;
        assert id in drafts && drafts[id] == before[id];
        var entry := PersistDraft(sess, id, diskWorks(id));
        ghost var out := if entry.Some? then [entry.value] else [];
        SilentDraft(now[id]);
        if entry.Some? {
          IncompleteHolds(runID, id, now[id], entry.value);
          assert entry.value in out;
        }
        VisitKeeps(runID, before, before.Keys - ids, now, drafts, id, landed, out);
        assert before.Keys - ids + {id} == before.Keys - (ids - {id});
        ids := ids - {id};
        hide OnlyKept, NoneForgotten, Written;
        if entry.Some? {
          MoreLanded(start, landed, entry.value);
          landed := landed + [entry.value];
          numbers := numbers + [updateSeq];
        }
      }
    }
  }

  lemma MoreLanded(start: seq<Entry>, landed: seq<Entry>, e: Entry)
    ensures start + landed + [e] == start + (landed + [e])
  {}

  function IncompleteMessage(draft: Draft, runID: string): Message {
    Message(None, Assistant, Incomplete(draft.blocks), true, runID, "", "", nothingCarried.(afterSeq := draft.afterEntrySeq))
  }

  lemma {:induction false} IncompleteKinds(blocks: seq<Block>)
    ensures forall b :: b in Incomplete(blocks) ==> b.kind == "text" || b.kind == "reasoning"
  {
    if blocks != [] { IncompleteKinds(blocks[..|blocks|-1]); }
  }

  /** The ledger never refuses an incomplete message for its content. */
  lemma IncompleteAccepted(draft: Draft, runID: string)
    ensures ValidMessage(IncompleteMessage(draft, runID))
  {
    IncompleteKinds(draft.blocks);
  }
}
