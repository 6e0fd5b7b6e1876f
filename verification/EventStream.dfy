/** A live run, the events it numbers and one subscriber, under every interleaving
    (internal/runner/emit.go, run.go, snapshot.go and internal/appserver/harness_run.go).
    Each region held under the run's locks is one step; publishing a numbered event is a
    separate step that may be overtaken by others. */
module EventStream {
  import opened Basics
  import opened Messages
  import opened Ledger
  import opened RunUpdates
  import opened RunListener
  import opened LiveRun

  // ---------- what a client makes of the updates ----------

  datatype View = View(entries: seq<Entry>, drafts: map<Id, Draft>)

  function IdSet(entries: seq<Entry>): set<Id> {
    set e | e in entries :: e.id
  }

  function Apply(v: View, u: Update): View {
    match u
    case Started(id, after) =>
      if id in IdSet(v.entries) || id in v.drafts then v else v.(drafts := v.drafts[id := Draft(id, after, [])])
    case Delta(id, kind, text, blockSeq, after) =>
      if id in IdSet(v.entries) then v
      else
        var blocks := if id in v.drafts then v.drafts[id].blocks else [];
        v.(drafts := v.drafts[id := Draft(id, after, if text == "" then blocks else DraftText(blocks, kind, text, blockSeq))])
    case Landed(e) =>
      View(if e.id in IdSet(v.entries) then v.entries else v.entries + [e], v.drafts - {e.id})
    case RunEnded => v.(drafts := map[])
    case Other => v
  }

  function Fold(v: View, events: seq<Event>): View {
    if events == [] then v else Apply(Fold(v, events[..|events|-1]), events[|events|-1].update)
  }

  /** The drafts a snapshot shows: those with text. */
  function Visible(drafts: map<Id, Draft>): map<Id, Draft> {
    map id | id in drafts && HasContent(drafts[id].blocks) :: drafts[id]
  }

  predicate TidyDrafts(drafts: map<Id, Draft>) {
    forall id :: id in drafts ==> Tidy(drafts[id].blocks)
  }

  predicate GoodUpdate(u: Update) {
    u.Delta? ==> u.kind in {"text", "reasoning"}
  }

  /** The same entries, and the same drafts apart from those without text. */
  predicate Alike(a: View, b: View) {
    a.entries == b.entries && Visible(a.drafts) == Visible(b.drafts)
  }

  function BlocksOf(drafts: map<Id, Draft>, id: Id): seq<Block> {
    if id in drafts then drafts[id].blocks else []
  }

  lemma SameBlocks(a: map<Id, Draft>, b: map<Id, Draft>, id: Id)
    requires Visible(a) == Visible(b) && TidyDrafts(a) && TidyDrafts(b)
    ensures BlocksOf(a, id) == BlocksOf(b, id)
  {
    if id in Visible(a) {
      assert Visible(a)[id] == Visible(b)[id];
    } else {
      assert id in a ==> !HasContent(a[id].blocks);
      assert id !in Visible(b);
      assert id in b ==> !HasContent(b[id].blocks);
    }
  }

  lemma VisiblePut(drafts: map<Id, Draft>, id: Id, d: Draft)
    ensures Visible(drafts[id := d]) == if HasContent(d.blocks) then Visible(drafts)[id := d] else Visible(drafts) - {id}
  {}

  lemma VisibleDrop(drafts: map<Id, Draft>, id: Id)
    ensures Visible(drafts - {id}) == Visible(drafts) - {id}
  {}

  lemma NoContent()
    ensures !HasContent([])
  {}

  /** The blocks of a draft after a delta. */
  function Grown(blocks: seq<Block>, u: Update): seq<Block>
    requires u.Delta?
  {
    if u.text == "" then blocks else DraftText(blocks, u.kind, u.text, u.blockSeq)
  }

  lemma GrownTidy(blocks: seq<Block>, u: Update)
    requires u.Delta? && GoodUpdate(u) && Tidy(blocks)
    ensures Tidy(Grown(blocks, u))
  {
    if u.text != "" { DraftTextTidy(blocks, u.kind, u.text, u.blockSeq); }
  }

  lemma ApplyTidy(v: View, u: Update)
    requires TidyDrafts(v.drafts) && GoodUpdate(u)
    ensures TidyDrafts(Apply(v, u).drafts)
  {
    if u.Delta? {
      assert Tidy(BlocksOf(v.drafts, u.entryID));
      GrownTidy(BlocksOf(v.drafts, u.entryID), u);
    }
  }

  lemma ApplyAlike(a: View, b: View, u: Update)
    requires Alike(a, b) && TidyDrafts(a.drafts) && TidyDrafts(b.drafts) && GoodUpdate(u)
    ensures Alike(Apply(a, u), Apply(b, u))
  {
    match u
    case Started(id, after) =>
      NoContent();
      StartInvisible(a.drafts, id, after);
      StartInvisible(b.drafts, id, after);
    case Delta(id, kind, text, blockSeq, after) =>
      SameBlocks(a.drafts, b.drafts, id);
      var d := Draft(id, after, Grown(BlocksOf(a.drafts, id), u));
      VisiblePut(a.drafts, id, d);
      VisiblePut(b.drafts, id, d);
    case Landed(e) =>
      VisibleDrop(a.drafts, e.id);
      VisibleDrop(b.drafts, e.id);
    case RunEnded =>
    case Other =>
  }

  lemma StartInvisible(drafts: map<Id, Draft>, id: Id, after: nat)
    ensures id !in drafts ==> Visible(drafts[id := Draft(id, after, [])]) == Visible(drafts)
  {
    NoContent();
    VisiblePut(drafts, id, Draft(id, after, []));
  }

  predicate GoodLog(log: seq<Event>) {
    forall i :: 0 <= i < |log| ==> GoodUpdate(log[i].update)
  }

  lemma {:induction false} FoldTidy(v: View, events: seq<Event>)
    requires TidyDrafts(v.drafts) && GoodLog(events)
    ensures TidyDrafts(Fold(v, events).drafts)
  {
    if events != [] {
      FoldTidy(v, events[..|events|-1]);
      ApplyTidy(Fold(v, events[..|events|-1]), events[|events|-1].update);
    }
  }

  lemma {:induction false} FoldAlike(a: View, b: View, events: seq<Event>)
    requires Alike(a, b) && TidyDrafts(a.drafts) && TidyDrafts(b.drafts) && GoodLog(events)
    ensures Alike(Fold(a, events), Fold(b, events))
  {
    if events != [] {
      var front := events[..|events|-1];
      FoldAlike(a, b, front);
      FoldTidy(a, front);
      FoldTidy(b, front);
      ApplyAlike(Fold(a, front), Fold(b, front), events[|events|-1].update);
    }
  }

  lemma {:induction false} FoldConcat(v: View, a: seq<Event>, b: seq<Event>)
    ensures Fold(v, a + b) == Fold(Fold(v, a), b)
  {
    if b == [] {
      assert a + b == a;
    } else {
      assert (a + b)[..|a + b|-1] == a + b[..|b|-1];
      FoldConcat(v, a, b[..|b|-1]);
    }
  }

  // ---------- the run ----------

  /** Opened until the first user entry is in the ledger; Appended until that entry is numbered;
      Draining once the loop has returned; Ended once the end is numbered. */
  datatype Phase = Opened | Appended | Live | Draining | Ended

  /** `leaving` is the counter `release` has read before it lets go of the session. */
  datatype ActiveRun = ActiveRun(phase: Phase, state: LiveState, leaving: Option<nat>)

  /** `dropped` are the identities of drafts that went without an update; a draft's identity is
      drawn anew and never used for a second one. */
  datatype Core = Core(entries: seq<Entry>, run: Option<ActiveRun>, clock: nat, dropped: set<Id>)

  /** `DropDraft` is a failing automatic compaction, which takes its draft back; `CloseDraft` is one
      draft of `persistOpenDrafts` whose write succeeds, a failing one being no step at all. */
  datatype RunnerStep =
    | Begin
    | AppendFirst(entry: Entry)
    | AnnounceFirst
    | StartDraft(id: Id)
    | StreamDelta(id: Id, kind: string, text: string, blockSeq: nat)
    | DropDraft(id: Id)
    | LandMessage(entry: Entry)
    | CommitInput(entry: Entry)
    | Announce
    | LoopReturns
    | CloseDraft(entry: Entry)
    | EndRun
    | ReadClock
    | Release

  predicate In(c: Core, phases: set<Phase>) {
    c.run.Some? && c.run.value.phase in phases && c.run.value.leaving.None?
  }

  /** New entries carry identities never used before; a loop starts a message before streaming into it.
      A run may leave from every phase but Live: before its first entry, after it when its record could
      not be saved, before its loop was started, or after its end. */
  predicate CanMove(c: Core, step: RunnerStep) {
    match step
    case Begin => c.run.None?
    case AppendFirst(e) => In(c, {Opened}) && e.id !in IdSet(c.entries) && e.seqNo > 0
    case AnnounceFirst => In(c, {Appended}) && c.entries != []
    case StartDraft(id) =>
      In(c, {Live}) && (id in c.run.value.state.persisted || (id !in IdSet(c.entries) && id !in c.dropped))
    case StreamDelta(id, kind, _, _) =>
      In(c, {Live}) && kind in {"text", "reasoning"}
      && (id == "" || id in c.run.value.state.persisted || id in c.run.value.state.drafts)
    case DropDraft(id) => In(c, {Live}) && id in c.run.value.state.drafts
    case LandMessage(e) => In(c, {Live}) && (e.id in c.run.value.state.persisted || e.id !in IdSet(c.entries))
    case CommitInput(e) => In(c, {Live}) && e.id !in IdSet(c.entries) && e.id !in c.run.value.state.drafts
    case Announce => In(c, {Live, Draining})
    case LoopReturns => In(c, {Live})
    case CloseDraft(e) =>
      In(c, {Draining}) && e.id in c.run.value.state.drafts
      && e.message.blocks == Incomplete(c.run.value.state.drafts[e.id].blocks) && e.message.incomplete
    case EndRun => In(c, {Draining})
    case ReadClock => In(c, {Opened, Appended, Ended}) || (In(c, {Draining}) && c.run.value.state.drafts == map[])
    case Release => c.run.Some? && c.run.value.leaving.Some?
  }

  datatype Outcome = Outcome(core: Core, update: Option<Update>)

  function Moving(c: Core, entries: seq<Entry>, phase: Phase, m: Moved): Outcome
    requires c.run.Some?
  {
    Outcome(c.(entries := entries, run := Some(c.run.value.(phase := phase, state := m.run))), m.update)
  }

  function Move(c: Core, step: RunnerStep): Outcome
    requires CanMove(c, step)
  {
    match step
    case Begin => Outcome(c.(run := Some(ActiveRun(Opened, LiveState(c.clock, map[], {}, 0, 0), None))), None)
    case AppendFirst(e) =>
      var l := c.run.value.state;
      Moving(c, c.entries + [e], Appended,
             Moved(l.(persisted := l.persisted + {e.id}, afterEntrySeq := e.seqNo, outputAfterSeq := e.seqNo), None))
    case AnnounceFirst => Moving(c, c.entries, Live, NumberedOf(c.run.value.state, Landed(c.entries[|c.entries|-1])))
    case StartDraft(id) => Moving(c, c.entries, Live, StartDraftOf(c.run.value.state, id))
    case StreamDelta(id, kind, text, blockSeq) => Moving(c, c.entries, Live, DeltaOf(c.run.value.state, id, kind, text, blockSeq))
    case DropDraft(id) =>
      var l := c.run.value.state;
      Moving(c.(dropped := c.dropped + {id}), c.entries, Live, Moved(l.(drafts := l.drafts - {id}), None))
    case LandMessage(e) =>
      if e.id in c.run.value.state.persisted then Moving(c, c.entries, Live, Moved(c.run.value.state, None))
      else Moving(c, c.entries + [e], Live, LandedOf(c.run.value.state, e))
    case CommitInput(e) =>
      var m := LandedOf(c.run.value.state, e);
      Moving(c, c.entries + [e], Live, m.(run := m.run.(outputAfterSeq := e.seqNo)))
    case Announce => Moving(c, c.entries, c.run.value.phase, NumberedOf(c.run.value.state, Other))
    case LoopReturns => Moving(c, c.entries, Draining, Moved(c.run.value.state, None))
    case CloseDraft(e) =>
      var l := c.run.value.state;
      if Incomplete(l.drafts[e.id].blocks) == [] then
        Moving(c.(dropped := c.dropped + {e.id}), c.entries, Draining, Moved(l.(drafts := l.drafts - {e.id}), None))
      else Moving(c, c.entries + [e], Draining, LandedOf(l, e))
    case EndRun => Moving(c, c.entries, Ended, NumberedOf(c.run.value.state, RunEnded))
    case ReadClock => Outcome(c.(run := Some(c.run.value.(leaving := Some(c.run.value.state.updateSeq)))), None)
    case Release => Outcome(Core(c.entries, None, c.run.value.leaving.value, c.dropped + c.run.value.state.drafts.Keys), None)
  }

  /** The first user entry is in the ledger without an update of its own. */
  predicate Unannounced(c: Core) {
    c.run.Some? && c.run.value.phase == Appended
  }

  function Drafts(c: Core): map<Id, Draft> {
    if c.run.Some? then c.run.value.state.drafts else map[]
  }

  /** The drafts of a run whose end is not numbered yet. */
  function Streaming(c: Core): map<Id, Draft> {
    if c.run.Some? && !c.run.value.phase.Ended? then c.run.value.state.drafts else map[]
  }

  /** The drafts an ended run still has because writing them failed. */
  function Kept(c: Core): map<Id, Draft> {
    if c.run.Some? && c.run.value.phase.Ended? then c.run.value.state.drafts else map[]
  }

  function Counter(c: Core): nat {
    if c.run.Some? then c.run.value.state.updateSeq else c.clock
  }

  predicate DraftsSound(c: Core) {
    c.run.Some? ==>
      var ActiveRun(phase, l, leaving) := c.run.value;
      && TidyDrafts(l.drafts)
      && (forall id :: id in l.drafts ==> l.drafts[id].entryID == id && id !in IdSet(c.entries) && id !in c.dropped)
      && l.persisted <= IdSet(c.entries)
      && (phase in {Opened, Appended} ==> l.drafts == map[])
      && (phase != Opened ==> l.afterEntrySeq > 0)
      && (phase == Appended ==> c.entries != [] && c.entries[|c.entries|-1].id !in IdSet(c.entries[..|c.entries|-1]))
      && (leaving.Some? ==> leaving.value == l.updateSeq && phase != Live && (phase == Draining ==> l.drafts == map[]))
  }

  // ---------- what a watcher cannot know ----------

  /** What happened without an update since somebody last looked: `missed` are first user entries that got
      none; `lost` are drafts with text that a watcher has been told of and that the streaming run no
      longer has. */
  datatype Silence = Silence(missed: set<Id>, lost: map<Id, Draft>)

  const silent: Silence := Silence({}, map[])

  function SilenceAfter(q: Silence, c: Core, step: RunnerStep): Silence
    requires CanMove(c, step)
  {
    var heard := match Move(c, step).update
                 case Some(Landed(e)) => Silence(q.missed - {e.id}, q.lost - {e.id})
                 case Some(RunEnded) => q.(lost := map[])
                 case _ => q;
    if step.AppendFirst? then heard.(missed := heard.missed + {step.entry.id})
    else if step.DropDraft? && HasContent(c.run.value.state.drafts[step.id].blocks)
    then heard.(lost := heard.lost[step.id := c.run.value.state.drafts[step.id]])
    else heard
  }

  function Without(entries: seq<Entry>, ids: set<Id>): (r: seq<Entry>)
    ensures |r| <= |entries|
  {
    if entries == [] then []
    else Without(entries[..|entries|-1], ids) + if entries[|entries|-1].id in ids then [] else [entries[|entries|-1]]
  }

  /** A watcher's view is the runner's state but for what happened silently. */
  predicate InStep(v: View, c: Core, q: Silence) {
    && v.entries == Without(c.entries, q.missed)
    && Visible(v.drafts) == Visible(Streaming(c)) + q.lost
  }

  predicate SilenceSound(c: Core, q: Silence) {
    && q.missed <= IdSet(c.entries)
    && q.lost.Keys <= c.dropped + Kept(c).Keys
  }

  predicate CoreInv(v: View, n: nat, c: Core, q: Silence) {
    Counter(c) == n && DraftsSound(c) && TidyDrafts(v.drafts) && SilenceSound(c, q) && InStep(v, c, q)
  }

  function After(v: View, u: Option<Update>): View {
    if u.Some? then Apply(v, u.value) else v
  }

  function Next(n: nat, u: Option<Update>): nat {
    if u.Some? then n + 1 else n
  }

  lemma IdSetMore(entries: seq<Entry>, e: Entry)
    ensures IdSet(entries + [e]) == IdSet(entries) + {e.id}
  {
    var more := entries + [e];
    forall id | id in IdSet(entries) + {e.id}
      ensures id in IdSet(more)
    {
      if id == e.id {
        assert more[|entries|] == e && e in more;
      } else {
        var x :| x in entries && x.id == id;
        assert x in more;
      }
    }
  }

  lemma WithoutNext(entries: seq<Entry>, e: Entry, ids: set<Id>)
    ensures Without(entries + [e], ids) == Without(entries, ids) + if e.id in ids then [] else [e]
  {
    assert (entries + [e])[..|entries|] == entries;
  }

  /** Identities that do not occur make no difference. */
  lemma {:induction false} WithoutSame(entries: seq<Entry>, a: set<Id>, b: set<Id>)
    requires forall id :: id in IdSet(entries) ==> (id in a <==> id in b)
    ensures Without(entries, a) == Without(entries, b)
  {
    if entries != [] {
      var n := |entries| - 1;
      assert entries == entries[..n] + [entries[n]];
      IdSetMore(entries[..n], entries[n]);
      WithoutSame(entries[..n], a, b);
    }
  }

  lemma {:induction false} WithoutIds(entries: seq<Entry>, ids: set<Id>)
    ensures IdSet(Without(entries, ids)) <= IdSet(entries)
  {
    if entries != [] {
      var n := |entries| - 1;
      var front := Without(entries[..n], ids);
      assert entries == entries[..n] + [entries[n]];
      IdSetMore(entries[..n], entries[n]);
      IdSetMore(front, entries[n]);
      WithoutIds(entries[..n], ids);
      assert front + [] == front;
    }
  }

  lemma {:induction false} WithoutNone(entries: seq<Entry>)
    ensures Without(entries, {}) == entries
  {
    if entries != [] { WithoutNone(entries[..|entries|-1]); }
  }

  /** Leaving an entry out shows. */
  lemma {:induction false} WithoutSome(entries: seq<Entry>, ids: set<Id>)
    requires ids * IdSet(entries) != {}
    ensures |Without(entries, ids)| < |entries|
  {
    var n := |entries| - 1;
    assert entries == entries[..n] + [entries[n]];
    IdSetMore(entries[..n], entries[n]);
    if ids * IdSet(entries[..n]) != {} { WithoutSome(entries[..n], ids); }
  }

  lemma MergePut(a: map<Id, Draft>, b: map<Id, Draft>, id: Id, d: Draft)
    requires id !in b
    ensures a[id := d] + b == (a + b)[id := d]
  {}

  lemma MergeDrop(a: map<Id, Draft>, b: map<Id, Draft>, id: Id)
    ensures (a - {id}) + (b - {id}) == a + b - {id}
  {}

  lemma DropAbsent(b: map<Id, Draft>, id: Id)
    requires id !in b
    ensures b - {id} == b
  {}

  /** A message of a live run lands: the draft goes, the entry comes. */
  lemma LandingKeeps(v: View, n: nat, c: Core, q: Silence, e: Entry)
    requires CoreInv(v, n, c, q) && In(c, {Live, Draining}) && e.id !in IdSet(c.entries)
    ensures CoreInv(Apply(v, Landed(e)), n + 1, Moving(c, c.entries + [e], c.run.value.phase, LandedOf(c.run.value.state, e)).core,
                    Silence(q.missed - {e.id}, q.lost - {e.id}))
  {
    IdSetMore(c.entries, e);
    VisibleDrop(v.drafts, e.id);
    VisibleDrop(Streaming(c), e.id);
    ApplyTidy(v, Landed(e));
    MergeDrop(Visible(Streaming(c)), q.lost, e.id);
    WithoutIds(c.entries, q.missed);
    WithoutNext(c.entries, e, q.missed);
    assert q.missed - {e.id} == q.missed;
  }

  lemma VisibleOne(drafts: map<Id, Draft>, shown: map<Id, Draft>, lost: map<Id, Draft>, id: Id)
    requires Visible(shown) == Visible(drafts) + lost && id !in lost && TidyDrafts(drafts) && TidyDrafts(shown)
    ensures BlocksOf(shown, id) == BlocksOf(drafts, id)
  {
    if id in Visible(drafts) {
      assert Visible(shown)[id] == Visible(drafts)[id];
    } else {
      assert id in drafts ==> !HasContent(drafts[id].blocks);
      assert id !in Visible(shown);
      assert id in shown ==> !HasContent(shown[id].blocks);
    }
  }

  /** The draft that a delta leaves. */
  function DraftAfter(l: LiveState, u: Update): Draft
    requires u.Delta? && u.entryID in l.drafts
  {
    Draft(u.entryID, l.drafts[u.entryID].afterEntrySeq, Grown(l.drafts[u.entryID].blocks, u))
  }

  lemma DeltaEffect(c: Core, id: Id, kind: string, text: string, blockSeq: nat)
    requires DraftsSound(c) && CanMove(c, StreamDelta(id, kind, text, blockSeq))
    requires id != "" && id !in c.run.value.state.persisted
    ensures var l, o := c.run.value.state, Move(c, StreamDelta(id, kind, text, blockSeq));
            var u := Delta(id, kind, text, blockSeq, l.drafts[id].afterEntrySeq);
            && o.update == Some(u) && Counter(o.core) == Counter(c) + 1 && DraftsSound(o.core)
            && o.core.entries == c.entries && o.core.dropped == c.dropped && Kept(o.core) == Kept(c)
            && Streaming(c) == l.drafts && Streaming(o.core) == l.drafts[id := DraftAfter(l, u)]
  {
    var l := c.run.value.state;
    var u := Delta(id, kind, text, blockSeq, l.drafts[id].afterEntrySeq);
    GrownTidy(l.drafts[id].blocks, u);
    assert l.drafts[id := l.drafts[id]] == l.drafts;
    hide IdSet, Tidy, DraftText;
  }

  lemma DeltaKeeps(v: View, n: nat, c: Core, q: Silence, id: Id, kind: string, text: string, blockSeq: nat)
    requires CoreInv(v, n, c, q) && CanMove(c, StreamDelta(id, kind, text, blockSeq))
    ensures var o := Move(c, StreamDelta(id, kind, text, blockSeq));
            CoreInv(After(v, o.update), Next(n, o.update), o.core, q)
  {
    var l := c.run.value.state;
    if id != "" && id !in l.persisted {
      var u := Delta(id, kind, text, blockSeq, l.drafts[id].afterEntrySeq);
      var d := DraftAfter(l, u);
      DeltaEffect(c, id, kind, text, blockSeq);
      WithoutIds(c.entries, q.missed);
      VisibleOne(l.drafts, v.drafts, q.lost, id);
      ApplyTidy(v, u);
      VisiblePut(v.drafts, id, d);
      VisiblePut(l.drafts, id, d);
      MergePut(Visible(l.drafts), q.lost, id, d);
      MergeDrop(Visible(l.drafts), q.lost, id);
      DropAbsent(q.lost, id);
      hide Without, HasContent, Visible, Move, DraftsSound, TidyDrafts, IdSet, Grown;
    }
  }

  lemma StartKeeps(v: View, n: nat, c: Core, q: Silence, id: Id)
    requires CoreInv(v, n, c, q) && CanMove(c, StartDraft(id))
    ensures var o := Move(c, StartDraft(id));
            CoreInv(After(v, o.update), Next(n, o.update), o.core, q)
  {
    var l := c.run.value.state;
    if id != "" && id !in l.persisted {
      var u := StartDraftOf(l, id).update.value;
      StartInvisible(v.drafts, id, u.after);
      StartInvisible(l.drafts, id, l.outputAfterSeq);
      ApplyTidy(v, u);
      NoContent();
    }
  }

  /** A draft taken back without an update stays with whoever was told of its text. */
  lemma DropKeeps(v: View, n: nat, c: Core, q: Silence, id: Id)
    requires CoreInv(v, n, c, q) && CanMove(c, DropDraft(id))
    ensures CoreInv(v, n, Move(c, DropDraft(id)).core, SilenceAfter(q, c, DropDraft(id)))
  {
    var l := c.run.value.state;
    VisibleDrop(l.drafts, id);
    var d := l.drafts[id];
    if HasContent(d.blocks) {
      assert (Visible(l.drafts) - {id}) + q.lost[id := d] == Visible(l.drafts) + q.lost;
    } else {
      assert id !in Visible(l.drafts);
      DropAbsent(Visible(l.drafts), id);
    }
  }

  lemma CloseKeeps(v: View, n: nat, c: Core, q: Silence, e: Entry)
    requires CoreInv(v, n, c, q) && CanMove(c, CloseDraft(e))
    ensures var o := Move(c, CloseDraft(e));
            CoreInv(After(v, o.update), Next(n, o.update), o.core, SilenceAfter(q, c, CloseDraft(e)))
  {
    var l := c.run.value.state;
    ContentSurvives(l.drafts[e.id].blocks);
    if Incomplete(l.drafts[e.id].blocks) == [] {
      VisibleDrop(l.drafts, e.id);
      assert e.id !in Visible(l.drafts);
      DropAbsent(Visible(l.drafts), e.id);
    } else {
      LandingKeeps(v, n, c, q, e);
    }
  }

  lemma AppendFirstKeeps(v: View, n: nat, c: Core, q: Silence, e: Entry)
    requires CoreInv(v, n, c, q) && CanMove(c, AppendFirst(e))
    ensures CoreInv(v, n, Move(c, AppendFirst(e)).core, SilenceAfter(q, c, AppendFirst(e)))
  {
    IdSetMore(c.entries, e);
    WithoutNext(c.entries, e, q.missed + {e.id});
    WithoutSame(c.entries, q.missed, q.missed + {e.id});
    assert (c.entries + [e])[..|c.entries|] == c.entries;
  }

  lemma AnnouncedEntries(front: seq<Entry>, e: Entry, missed: set<Id>)
    requires e.id !in IdSet(front)
    ensures var seen := Without(front + [e], missed);
            && (e.id in IdSet(seen) <==> e.id !in missed)
            && (if e.id in IdSet(seen) then seen else seen + [e]) == Without(front + [e], missed - {e.id})
  {
    WithoutNext(front, e, missed);
    WithoutNext(front, e, missed - {e.id});
    WithoutSame(front, missed, missed - {e.id});
    WithoutIds(front, missed);
    if e.id !in missed { IdSetMore(Without(front, missed), e); }
    hide Without;
    assert Without(front, missed) + [] == Without(front, missed);
  }

  /** The first user entry gets its number; a watcher that looked in between has it already, and ignores
      the update by the entry's identity. */
  lemma AnnounceFirstKeeps(v: View, n: nat, c: Core, q: Silence)
    requires CoreInv(v, n, c, q) && CanMove(c, AnnounceFirst)
    ensures var o := Move(c, AnnounceFirst);
            CoreInv(After(v, o.update), n + 1, o.core, SilenceAfter(q, c, AnnounceFirst))
    ensures c.entries[|c.entries|-1].id !in q.missed ==> After(v, Move(c, AnnounceFirst).update).entries == v.entries
  {
    var front, e := c.entries[..|c.entries|-1], c.entries[|c.entries|-1];
    assert c.entries == front + [e];
    AnnounceEffect(v, c, q);
    AnnouncedEntries(front, e, q.missed);
    ApplyTidy(v, Landed(e));
    AnnouncedDrafts(v, c, q, e);
    hide Without, IdSet, Visible, Streaming, TidyDrafts, DraftsSound, Move, CanMove, SilenceAfter, Kept;
  }

  lemma AnnounceEffect(v: View, c: Core, q: Silence)
    requires DraftsSound(c) && SilenceSound(c, q) && CanMove(c, AnnounceFirst)
    ensures var o, e := Move(c, AnnounceFirst), c.entries[|c.entries|-1];
            && o.update == Some(Landed(e)) && o.core.entries == c.entries && Counter(o.core) == Counter(c) + 1
            && SilenceAfter(q, c, AnnounceFirst) == Silence(q.missed - {e.id}, q.lost - {e.id})
            && DraftsSound(o.core) && SilenceSound(o.core, Silence(q.missed - {e.id}, q.lost - {e.id}))
            && e.id !in IdSet(c.entries[..|c.entries|-1])
  {
    hide IdSet, TidyDrafts;
  }

  /** No draft is streaming yet when the first entry is announced. */
  lemma AnnouncedDrafts(v: View, c: Core, q: Silence, e: Entry)
    requires DraftsSound(c) && InStep(v, c, q) && CanMove(c, AnnounceFirst)
    ensures Visible(v.drafts - {e.id}) == Visible(Streaming(Move(c, AnnounceFirst).core)) + (q.lost - {e.id})
    ensures Kept(c) == map[] && Drafts(Move(c, AnnounceFirst).core) == map[]
  {
    hide Without, IdSet, TidyDrafts;
    VisibleDrop(v.drafts, e.id);
    assert Visible(map[]) == map[];
    assert map[] + q.lost == q.lost && map[] + (q.lost - {e.id}) == q.lost - {e.id};
  }

  lemma CommitKeeps(v: View, n: nat, c: Core, q: Silence, e: Entry)
    requires CoreInv(v, n, c, q) && CanMove(c, CommitInput(e))
    ensures var o := Move(c, CommitInput(e));
            && o.update == Some(Landed(e))
            && CoreInv(Apply(v, Landed(e)), n + 1, o.core, Silence(q.missed - {e.id}, q.lost - {e.id}))
  {
    LandingKeeps(v, n, c, q, e);
    hide Visible, TidyDrafts, Without, IdSet;
  }

  /** Every step of the runner keeps its state and the numbered updates in step, but for what it does
      silently. */
  lemma MoveKeeps(v: View, n: nat, c: Core, q: Silence, step: RunnerStep)
    requires CoreInv(v, n, c, q) && CanMove(c, step)
    ensures var o := Move(c, step);
            && CoreInv(After(v, o.update), Next(n, o.update), o.core, SilenceAfter(q, c, step))
            && (o.update.Some? ==> GoodUpdate(o.update.value))
  {
    hide CoreInv, Visible, TidyDrafts, Streaming, Without;
    match step
    case AppendFirst(e) => AppendFirstKeeps(v, n, c, q, e);
    case AnnounceFirst => AnnounceFirstKeeps(v, n, c, q);
    case StartDraft(id) => StartKeeps(v, n, c, q, id);
    case StreamDelta(id, kind, text, blockSeq) => DeltaKeeps(v, n, c, q, id, kind, text, blockSeq);
    case DropDraft(id) => DropKeeps(v, n, c, q, id);
    case LandMessage(e) => if e.id !in c.run.value.state.persisted { LandingKeeps(v, n, c, q, e); }
    case CommitInput(e) => CommitKeeps(v, n, c, q, e);
    case CloseDraft(e) => CloseKeeps(v, n, c, q, e);
    case _ => PlainKeeps(v, n, c, q, step);
  }

  lemma PlainKeeps(v: View, n: nat, c: Core, q: Silence, step: RunnerStep)
    requires CoreInv(v, n, c, q) && CanMove(c, step)
    requires step.Begin? || step.Announce? || step.LoopReturns? || step.EndRun? || step.ReadClock? || step.Release?
    ensures var o := Move(c, step);
            && CoreInv(After(v, o.update), Next(n, o.update), o.core, SilenceAfter(q, c, step))
  {
    hide Without, IdSet;
    assert Visible(map[]) == map[];
    if step.Release? { assert Visible(Streaming(c)) == map[]; }
  }

  // ---------- publishing, and one subscriber ----------

  datatype Snapshot = Snapshot(entries: seq<Entry>, drafts: map<Id, Draft>, updateSeq: nat)

  /** `inFlight` are numbers whose publishing has not begun; `calling` those for which the registry
      has already picked up the subscriber but not called it.  `log` is every numbered event.  `silence`
      is counted from the subscriber's snapshot on, and before there is one from the start. */
  datatype World = World(
    sessionID: string, epoch: string,
    core: Core, log: seq<Event>, inFlight: set<nat>, calling: set<nat>,
    registered: Option<nat>, cut: Option<Snapshot>, silence: Silence, listener: Listener)

  datatype Step =
    | RunnerMoves(step: RunnerStep)
    | PublishBegins(n: nat)
    | ListenerCalled(n: nat)
    | Subscribes
    | CutsSnapshot
    | Starts
    | OtherSession(event: Event)
    | ConnectionGone

  predicate Enabled(s: World, step: Step) {
    match step
    case RunnerMoves(r) => CanMove(s.core, r)
    case PublishBegins(n) => n in s.inFlight && 0 < n <= |s.log|
    case ListenerCalled(n) => n in s.calling && 0 < n <= |s.log|
    case Subscribes => s.registered.None?
    case CutsSnapshot => s.registered.Some? && s.cut.None?
    case Starts => s.cut.Some? && !s.listener.ready
    case OtherSession(e) => s.registered.Some? && e.sessionID != s.sessionID
    case ConnectionGone => s.registered.Some?
  }

  /** `SessionView`: ledger, drafts and counter read together under the run's locks. */
  function SessionView(c: Core): Snapshot {
    var shown := if c.run.Some? && c.run.value.state.afterEntrySeq != 0 then Visible(c.run.value.state.drafts) else map[];
    Snapshot(c.entries, shown, Counter(c))
  }

  function Numbered(s: World, o: Outcome, q: Silence): World {
    if o.update.None? then s.(core := o.core, silence := q)
    else
      var n := |s.log| + 1;
      s.(core := o.core, silence := q, log := s.log + [Event(s.sessionID, s.epoch, n, o.update.value)],
         inFlight := s.inFlight + {n})
  }

  function Then(s: World, step: Step): World
    requires Enabled(s, step)
  {
    match step
    case RunnerMoves(r) => Numbered(s, Move(s.core, r), SilenceAfter(s.silence, s.core, r))
    case PublishBegins(n) =>
      s.(inFlight := s.inFlight - {n}, calling := if s.registered.Some? then s.calling + {n} else s.calling)
    case ListenerCalled(n) =>
      s.(calling := s.calling - {n}, listener := Received(s.listener, s.sessionID, s.log[n-1]))
    case Subscribes => s.(registered := Some(|s.log|), listener := newListener)
    case CutsSnapshot => s.(cut := Some(SessionView(s.core)), silence := Silence({}, Visible(Kept(s.core))))
    case Starts => s.(listener := Begun(s.listener, s.epoch, s.cut.value.updateSeq))
    case OtherSession(e) => s.(listener := Received(s.listener, s.sessionID, e))
    case ConnectionGone => s.(listener := s.listener.(done := true))
  }

  /** A process that has just started, on a ledger that may already hold entries. */
  function Fresh(sessionID: string, epoch: string, entries: seq<Entry>): World {
    World(sessionID, epoch, Core(entries, None, 0, {}), [], {}, {}, None, None, silent, newListener)
  }

  predicate Follows(s: World, steps: seq<Step>)
    decreases |steps|
  {
    steps == [] || (Enabled(s, steps[0]) && Follows(Then(s, steps[0]), steps[1..]))
  }

  function Run(s: World, steps: seq<Step>): World
    requires Follows(s, steps)
    decreases |steps|
  {
    if steps == [] then s else Run(Then(s, steps[0]), steps[1..])
  }

  // ---------- invariants of the stream ----------

  /** Event `i` of the log carries number `i + 1` of this session and process. */
  predicate LogSound(s: World) {
    GoodLog(s.log)
    && forall i :: 0 <= i < |s.log| ==>
         s.log[i].updateSeq == i + 1 && s.log[i].sessionID == s.sessionID && s.log[i].epoch == s.epoch
  }

  predicate FlightSound(s: World) {
    && (forall n :: n in s.inFlight ==> 0 < n <= |s.log|)
    && (forall n :: n in s.calling ==> 0 < n <= |s.log|)
    && FromLog(s.listener.pending, s.log)
    && (s.registered.None? ==> s.calling == {} && s.cut.None? && s.listener == newListener)
    && (s.registered.Some? ==> s.registered.value <= |s.log|)
    && (s.cut.Some? ==> s.registered.Some? && s.registered.value <= s.cut.value.updateSeq <= |s.log|)
  }

  /** Until the connection goes, no event numbered after the subscription is lost. */
  predicate NothingLost(s: World) {
    s.registered.Some? && !s.listener.done ==>
      forall n :: s.registered.value < n <= |s.log| ==>
        n in s.inFlight || n in s.calling || n in s.listener.pending || (s.listener.ready && n <= s.listener.through)
  }

  predicate ListenerSound(s: World) {
    var l := s.listener;
    if l.ready then
      && s.cut.Some? && l.epoch == s.epoch
      && DeliveredRange(l, s.log, s.cut.value.updateSeq)
      && (!l.done ==> Settled(l))
    else l.delivered == [] && l.through == 0
  }

  /** Where watching begins: the subscriber's snapshot, and before there is one the start. */
  function Base(init: View, s: World): View {
    if s.cut.Some? then View(s.cut.value.entries, s.cut.value.drafts) else init
  }

  function BaseSeq(s: World): nat {
    if s.cut.Some? then s.cut.value.updateSeq else 0
  }

  /** The view of a subscriber that has been given every update. */
  function Watched(init: View, s: World): View
    requires BaseSeq(s) <= |s.log|
  {
    Fold(Base(init, s), s.log[BaseSeq(s)..])
  }

  predicate WatchSound(init: View, s: World) {
    BaseSeq(s) <= |s.log| && CoreInv(Watched(init, s), |s.log|, s.core, s.silence)
  }

  predicate Inv(init: View, s: World) {
    LogSound(s) && FlightSound(s) && NothingLost(s) && ListenerSound(s) && WatchSound(init, s)
  }

  lemma FoldMore(v: View, log: seq<Event>, from: nat, e: Event)
    requires from <= |log|
    ensures Fold(v, (log + [e])[from..]) == Apply(Fold(v, log[from..]), e.update)
  {
    var rest := log[from..];
    assert (log + [e])[from..] == rest + [e];
    assert (rest + [e])[..|rest|] == rest;
  }

  lemma LongerLog(s: World, log: seq<Event>, from: nat)
    requires s.log <= log && DeliveredRange(s.listener, s.log, from)
    ensures DeliveredRange(s.listener, log, from)
  {
    assert log[from..s.listener.through] == s.log[from..s.listener.through];
  }

  lemma NumberedWatch(init: View, s: World, o: Outcome, q: Silence)
    requires BaseSeq(s) <= |s.log|
    ensures var next := Numbered(s, o, q);
            && BaseSeq(next) <= |next.log| == Next(|s.log|, o.update)
            && next.core == o.core && next.silence == q
            && Watched(init, next) == After(Watched(init, s), o.update)
  {
    hide Fold, Apply;
    if o.update.Some? {
      FoldMore(Base(init, s), s.log, BaseSeq(s), Event(s.sessionID, s.epoch, |s.log| + 1, o.update.value));
    }
  }

  /** Numbering an update disturbs neither the buffer nor the watch. */
  lemma NumberingKeeps(init: View, s: World, r: RunnerStep)
    requires Inv(init, s) && CanMove(s.core, r)
    ensures Inv(init, Then(s, RunnerMoves(r)))
  {
    var o, q := Move(s.core, r), SilenceAfter(s.silence, s.core, r);
    MoveKeeps(Watched(init, s), |s.log|, s.core, s.silence, r);
    hide CanMove, Move, CoreInv, Watched, BaseSeq, LogSound, FlightSound, NothingLost, ListenerSound, SilenceAfter, Numbered;
    NumberedWatch(init, s, o, q);
    NumberedFlight(s, o, q);
  }

  lemma NumberedFlight(s: World, o: Outcome, q: Silence)
    requires LogSound(s) && FlightSound(s) && NothingLost(s) && ListenerSound(s)
    requires o.update.Some? ==> GoodUpdate(o.update.value)
    ensures var next := Numbered(s, o, q); LogSound(next) && FlightSound(next) && NothingLost(next) && ListenerSound(next)
  {
    if s.listener.ready { LongerLog(s, Numbered(s, o, q).log, s.cut.value.updateSeq); }
  }

  lemma SameWatch(init: View, s: World, next: World)
    requires WatchSound(init, s) && next.log == s.log && next.core == s.core && next.silence == s.silence && next.cut == s.cut
    ensures WatchSound(init, next)
  {
    hide Fold, CoreInv;
  }

  lemma PublishKeeps(init: View, s: World, n: nat)
    requires Inv(init, s) && Enabled(s, PublishBegins(n))
    ensures Inv(init, Then(s, PublishBegins(n)))
  {
    SameWatch(init, s, Then(s, PublishBegins(n)));
    hide CoreInv, Fold, WatchSound;
  }

  /** A started listener takes the event and hands on what has become contiguous. */
  lemma ReadyReceives(s: World, n: nat)
    requires LogSound(s) && FlightSound(s) && ListenerSound(s) && 0 < n <= |s.log|
    requires s.listener.ready && !s.listener.done && n > s.listener.through
    ensures var l, r := s.listener, Received(s.listener, s.sessionID, s.log[n-1]);
            && FromLog(r.pending, s.log) && r.ready && r.epoch == l.epoch
            && DeliveredRange(r, s.log, s.cut.value.updateSeq) && (!r.done ==> Settled(r))
            && (n in r.pending || n <= r.through) && (forall k :: k in l.pending ==> k in r.pending || k <= r.through)
            && l.through <= r.through
  {
    var l, e := s.listener, s.log[n-1];
    var added := l.(pending := l.pending[n := e]);
    assert FromLog(added.pending, s.log);
    FlushDelivers(added, s.log, s.cut.value.updateSeq);
    hide LogSound, Flushed;
  }

  /** What one call of the listener keeps. */
  lemma ReceivedKeeps(s: World, n: nat)
    requires LogSound(s) && FlightSound(s) && ListenerSound(s) && 0 < n <= |s.log|
    ensures var l, r := s.listener, Received(s.listener, s.sessionID, s.log[n-1]);
            && FromLog(r.pending, s.log) && r.ready == l.ready && r.epoch == l.epoch && (l.done ==> r.done)
            && (if l.ready then DeliveredRange(r, s.log, s.cut.value.updateSeq) && (!r.done ==> Settled(r))
                else r.delivered == [] && r.through == 0)
            && (!r.done ==> n in r.pending || (r.ready && n <= r.through))
            && (!r.done ==> forall k :: k in l.pending ==> k in r.pending || (r.ready && k <= r.through))
            && l.through <= r.through
  {
    var l, e := s.listener, s.log[n-1];
    hide DeliveredRange, Flushed;
    if l.ready && !l.done && n > l.through { ReadyReceives(s, n); }
  }

  /** The called listener has the event, has handed it on, or is gone. */
  lemma CallLosesNothing(s: World, n: nat)
    requires LogSound(s) && FlightSound(s) && ListenerSound(s) && NothingLost(s) && Enabled(s, ListenerCalled(n))
    ensures NothingLost(Then(s, ListenerCalled(n)))
  {
    ReceivedKeeps(s, n);
    hide Received, DeliveredRange, Settled, FromLog, LogSound, FlightSound, ListenerSound;
  }

  lemma CallStaysSound(s: World, n: nat)
    requires LogSound(s) && FlightSound(s) && ListenerSound(s) && Enabled(s, ListenerCalled(n))
    ensures var next := Then(s, ListenerCalled(n)); LogSound(next) && FlightSound(next)
  {
    SameLog(s, Then(s, ListenerCalled(n)));
    ReceivedKeeps(s, n);
    hide Received, DeliveredRange, Settled, FromLog, LogSound, ListenerSound;
  }

  lemma SameLog(s: World, next: World)
    requires LogSound(s) && next.log == s.log && next.sessionID == s.sessionID && next.epoch == s.epoch
    ensures LogSound(next)
  {}

  lemma CallStaysInOrder(s: World, n: nat)
    requires LogSound(s) && FlightSound(s) && ListenerSound(s) && Enabled(s, ListenerCalled(n))
    ensures ListenerSound(Then(s, ListenerCalled(n)))
  {
    var next := Then(s, ListenerCalled(n));
    assert next == s.(calling := next.calling, listener := next.listener);
    ReceivedKeeps(s, n);
    hide Then, Enabled, Received, DeliveredRange, Settled, FromLog, LogSound, FlightSound;
  }

  lemma CallKeeps(init: View, s: World, n: nat)
    requires Inv(init, s) && Enabled(s, ListenerCalled(n))
    ensures Inv(init, Then(s, ListenerCalled(n)))
  {
    hide WatchSound, NothingLost, LogSound, FlightSound, ListenerSound;
    SameWatch(init, s, Then(s, ListenerCalled(n)));
    CallLosesNothing(s, n);
    CallStaysSound(s, n);
    CallStaysInOrder(s, n);
  }

  lemma StartKeepsStream(init: View, s: World)
    requires Inv(init, s) && Enabled(s, Starts)
    ensures Inv(init, Then(s, Starts))
  {
    var l, from := s.listener, s.cut.value.updateSeq;
    var base := Listener(true, s.epoch, from, Above(l.pending, from), l.delivered, l.done);
    assert s.log[from..from] == [];
    FlushDelivers(base, s.log, from);
    SameWatch(init, s, Then(s, Starts));
    hide CoreInv, Fold, Flushed, WatchSound;
  }

  /** A snapshot is a consistent cut: it shows exactly the runner's state at its number, whatever happened
      silently before. */
  lemma CutKeeps(init: View, s: World)
    requires Inv(init, s) && Enabled(s, CutsSnapshot)
    ensures Inv(init, Then(s, CutsSnapshot))
    ensures var Snapshot(entries, drafts, n) := Then(s, CutsSnapshot).cut.value;
            entries == s.core.entries && drafts == Visible(Drafts(s.core)) && n == |s.log|
  {
    var next := Then(s, CutsSnapshot);
    SnapshotInStep(Watched(init, s), |s.log|, s.core, s.silence);
    hide CoreInv, Without, Visible, Drafts, Kept;
    assert next.log[BaseSeq(next)..] == [];
  }

  lemma SnapshotInStep(v: View, n: nat, c: Core, q: Silence)
    requires CoreInv(v, n, c, q)
    ensures SessionView(c) == Snapshot(c.entries, Visible(Drafts(c)), n)
    ensures CoreInv(View(c.entries, Visible(Drafts(c))), n, c, Silence({}, Visible(Kept(c))))
  {
    assert Visible(map[]) == map[];
    VisibleTwice(Drafts(c));
    WithoutNone(c.entries);
    hide Without;
  }

  lemma VisibleTwice(drafts: map<Id, Draft>)
    ensures Visible(Visible(drafts)) == Visible(drafts)
    ensures TidyDrafts(drafts) ==> TidyDrafts(Visible(drafts))
  {}

  lemma OthersKeep(init: View, s: World, step: Step)
    requires Inv(init, s) && Enabled(s, step) && (step.Subscribes? || step.OtherSession? || step.ConnectionGone?)
    ensures Inv(init, Then(s, step))
  {
    SameWatch(init, s, Then(s, step));
    hide CoreInv, Fold, WatchSound;
  }

  lemma StepKeeps(init: View, s: World, step: Step)
    requires Inv(init, s) && Enabled(s, step)
    ensures Inv(init, Then(s, step))
  {
    hide Inv, Then, Enabled;
    match step
    case RunnerMoves(r) => assert CanMove(s.core, r) by { EnabledMove(s, r); } NumberingKeeps(init, s, r);
    case PublishBegins(n) => PublishKeeps(init, s, n);
    case ListenerCalled(n) => CallKeeps(init, s, n);
    case CutsSnapshot => CutKeeps(init, s);
    case Starts => StartKeepsStream(init, s);
    case _ => OthersKeep(init, s, step);
  }

  lemma EnabledMove(s: World, r: RunnerStep)
    requires Enabled(s, RunnerMoves(r))
    ensures CanMove(s.core, r)
  {
    hide CanMove;
  }

  lemma {:induction false} RunKeeps(init: View, s: World, steps: seq<Step>)
    requires Inv(init, s) && Follows(s, steps)
    ensures Inv(init, Run(s, steps))
    decreases |steps|
  {
    hide Inv, Enabled, Then;
    if steps != [] {
      StepKeeps(init, s, steps[0]);
      RunKeeps(init, Then(s, steps[0]), steps[1..]);
    }
  }

  lemma FreshInv(sessionID: string, epoch: string, entries: seq<Entry>)
    ensures Inv(View(entries, map[]), Fresh(sessionID, epoch, entries))
  {
    assert Visible(map[]) == map[];
    WithoutNone(entries);
  }

  // ---------- what the subscriber sees ----------

  /** The connection stands and no publishing is under way. */
  predicate Quiet(s: World) {
    s.listener.ready && !s.listener.done && s.inFlight == {} && s.calling == {}
  }

  /** What the subscriber makes of what it was given. */
  function Shown(s: World): View
    requires s.cut.Some?
  {
    Fold(View(s.cut.value.entries, s.cut.value.drafts), s.listener.delivered)
  }

  /** In every interleaving: what a started subscriber has been given is exactly the events after
      its snapshot, in order, without a gap or a repetition.  While the connection stands, nothing
      that could be given is held back.  Once no publishing is under way, folding the events over the
      snapshot gives the run's present ledger without the first user entries that got no update, and
      the drafts of the streaming run together with those dropped silently; so it gives the present
      ledger exactly when no such entry came after the snapshot, and the present drafts exactly when
      no draft was dropped since and every draft of an ended run was written. */
  lemma Delivery(sessionID: string, epoch: string, entries: seq<Entry>, steps: seq<Step>)
    requires Follows(Fresh(sessionID, epoch, entries), steps)
    ensures var s := Run(Fresh(sessionID, epoch, entries), steps);
            var l := s.listener;
            l.ready ==>
              && s.cut.Some?
              && var n := s.cut.value.updateSeq;
                 && n <= l.through <= |s.log| && l.delivered == s.log[n..l.through]
                 && (forall i :: 0 <= i < |l.delivered| ==> l.delivered[i].updateSeq == n + 1 + i)
                 && (!l.done ==> l.through + 1 !in l.pending)
                 && (Quiet(s) ==>
                       && l.through == |s.log| == Counter(s.core)
                       && Shown(s).entries == Without(s.core.entries, s.silence.missed)
                       && Visible(Shown(s).drafts) == Visible(Streaming(s.core)) + s.silence.lost
                       && (Shown(s).entries == s.core.entries <==> s.silence.missed == {})
                       && (Visible(Shown(s).drafts) == Visible(Drafts(s.core)) <==> s.silence.lost == Visible(Kept(s.core))))
  {
    var init := View(entries, map[]);
    FreshInv(sessionID, epoch, entries);
    RunKeeps(init, Fresh(sessionID, epoch, entries), steps);
    var s := Run(Fresh(sessionID, epoch, entries), steps);
    if s.listener.ready {
      StartedSubscriber(init, s);
      if Quiet(s) { QuietSubscriber(init, s); }
    }
  }

  lemma StartedSubscriber(init: View, s: World)
    requires Inv(init, s) && s.listener.ready
    ensures var l := s.listener;
            && s.cut.Some?
            && var n := s.cut.value.updateSeq;
               && n <= l.through <= |s.log| && l.delivered == s.log[n..l.through]
               && (forall i :: 0 <= i < |l.delivered| ==> l.delivered[i].updateSeq == n + 1 + i)
               && (!l.done ==> l.through + 1 !in l.pending)
  {
    hide WatchSound;
  }

  lemma QuietSubscriber(init: View, s: World)
    requires Inv(init, s) && Quiet(s)
    ensures s.cut.Some? && s.listener.through == |s.log| == Counter(s.core)
    ensures Shown(s).entries == Without(s.core.entries, s.silence.missed)
    ensures Visible(Shown(s).drafts) == Visible(Streaming(s.core)) + s.silence.lost
    ensures Shown(s).entries == s.core.entries <==> s.silence.missed == {}
    ensures Visible(Shown(s).drafts) == Visible(Drafts(s.core)) <==> s.silence.lost == Visible(Kept(s.core))
  {
    CaughtUp(s);
    assert s.log[s.cut.value.updateSeq..|s.log|] == s.log[s.cut.value.updateSeq..];
    assert Shown(s) == Watched(init, s);
    hide LogSound, FlightSound, NothingLost, ListenerSound, Fold, Watched, Without;
    SilenceShows(Shown(s), |s.log|, s.core, s.silence);
  }

  /** A view in step is the runner's state exactly when nothing happened silently. */
  lemma SilenceShows(v: View, n: nat, c: Core, q: Silence)
    requires CoreInv(v, n, c, q)
    ensures v.entries == c.entries <==> q.missed == {}
    ensures Visible(v.drafts) == Visible(Drafts(c)) <==> q.lost == Visible(Kept(c))
  {
    WithoutNone(c.entries);
    if q.missed != {} {
      var id :| id in q.missed;
      assert id in q.missed * IdSet(c.entries);
      WithoutSome(c.entries, q.missed);
    }
    assert Visible(map[]) == map[];
    if Kept(c) == map[] {
      assert Streaming(c) == Drafts(c);
      ApartMerge(Visible(Drafts(c)), q.lost);
    } else {
      assert Streaming(c) == map[] && Drafts(c) == Kept(c);
      assert map[] + q.lost == q.lost;
    }
  }

  lemma ApartMerge(a: map<Id, Draft>, b: map<Id, Draft>)
    requires forall id :: id in a ==> id !in b
    ensures a + b == a <==> b == map[]
  {
    if b != map[] {
      var id :| id in b;
      assert id in a + b;
    }
  }

  lemma StillBuffered(s: World)
    requires NothingLost(s) && s.registered.Some? && !s.listener.done && s.inFlight == {} && s.calling == {}
    requires s.registered.value <= s.listener.through
    ensures s.listener.through < |s.log| ==> s.listener.through + 1 in s.listener.pending
  {}

  /** With no publishing under way a live subscriber has been given everything. */
  lemma CaughtUp(s: World)
    requires NothingLost(s) && ListenerSound(s) && FlightSound(s) && Quiet(s)
    ensures s.cut.Some? && s.listener.through == |s.log|
  {
    StillBuffered(s);
  }

  /** A snapshot once cut stays, and the log only grows. */
  lemma {:induction false} CutStays(s: World, steps: seq<Step>)
    requires Follows(s, steps) && s.cut.Some?
    ensures Run(s, steps).cut == s.cut && s.log <= Run(s, steps).log
    decreases |steps|
  {
    if steps != [] { CutStays(Then(s, steps[0]), steps[1..]); }
  }

  lemma {:induction false} RunSplit(s: World, steps: seq<Step>, k: nat)
    requires Follows(s, steps) && k <= |steps|
    ensures Follows(s, steps[..k]) && Follows(Run(s, steps[..k]), steps[k..])
    ensures Run(Run(s, steps[..k]), steps[k..]) == Run(s, steps)
    decreases |steps|
  {
    hide Enabled, Then;
    if k > 0 {
      RunSplit(Then(s, steps[0]), steps[1..], k - 1);
      assert steps[..k][0] == steps[0] && steps[..k][1..] == steps[1..][..k-1] && steps[k..] == steps[1..][k-1..];
    } else {
      assert steps[..0] == [] && steps[0..] == steps;
    }
  }

  /** The updates numbered after the snapshot and up to any later moment, folded over it, give the state the
      run had at that moment, but for what had happened silently by then. */
  lemma FoldFromCut(sessionID: string, epoch: string, entries: seq<Entry>, steps: seq<Step>, k: nat)
    requires Follows(Fresh(sessionID, epoch, entries), steps) && k <= |steps|
    ensures Follows(Fresh(sessionID, epoch, entries), steps[..k])
    ensures var start := Fresh(sessionID, epoch, entries);
            var past, now := Run(start, steps[..k]), Run(start, steps);
            past.cut.Some? ==>
              && now.cut == past.cut && past.cut.value.updateSeq <= |past.log| <= |now.log|
              && InStep(Fold(View(now.cut.value.entries, now.cut.value.drafts), now.log[now.cut.value.updateSeq..|past.log|]),
                        past.core, past.silence)
  {
    var start := Fresh(sessionID, epoch, entries);
    RunSplit(start, steps, k);
    var past, now := Run(start, steps[..k]), Run(start, steps);
    FreshInv(sessionID, epoch, entries);
    RunKeeps(View(entries, map[]), start, steps[..k]);
    if past.cut.Some? {
      CutStays(past, steps[k..]);
      assert now.log[past.cut.value.updateSeq..|past.log|] == past.log[past.cut.value.updateSeq..];
      hide LogSound, NothingLost, ListenerSound, Fold, InStep;
    }
  }

  /** An entry that a snapshot holds early is ignored when its update arrives. */
  lemma EarlyMeetsItsUpdate(start: View, full: View, rest: seq<Event>, e: Entry)
    requires rest != [] && rest[0].update == Landed(e) && GoodLog(rest)
    requires start.entries == full.entries + [e] && e.id !in IdSet(full.entries)
    requires Visible(start.drafts) == Visible(full.drafts) && TidyDrafts(start.drafts) && TidyDrafts(full.drafts)
    ensures Alike(Fold(start, rest), Fold(full, rest))
  {
    var first := rest[..1];
    assert rest == first + rest[1..] && first[..0] == [];
    FoldConcat(start, first, rest[1..]);
    FoldConcat(full, first, rest[1..]);
    assert Fold(start, []) == start && Fold(full, []) == full;
    assert Fold(start, first) == Apply(start, Landed(e)) && Fold(full, first) == Apply(full, Landed(e));
    IdSetMore(full.entries, e);
    VisibleDrop(start.drafts, e.id);
    VisibleDrop(full.drafts, e.id);
    ApplyTidy(start, Landed(e));
    ApplyTidy(full, Landed(e));
    FoldAlike(Fold(start, first), Fold(full, first), rest[1..]);
  }

  // ---------- when nothing happens silently ----------

  /** No draft is taken back, every draft of an ending run is written, and the record of a run is saved. */
  predicate Undisturbed(s: World, step: Step) {
    match step
    case RunnerMoves(DropDraft(_)) => false
    case RunnerMoves(EndRun) => Drafts(s.core) == map[]
    case RunnerMoves(ReadClock) => !Unannounced(s.core)
    case _ => true
  }

  predicate AllUndisturbed(s: World, steps: seq<Step>)
    requires Follows(s, steps)
    decreases |steps|
  {
    steps == [] || (Undisturbed(s, steps[0]) && AllUndisturbed(Then(s, steps[0]), steps[1..]))
  }

  predicate Audible(s: World) {
    && s.silence.lost == map[] && Kept(s.core) == map[]
    && (s.silence.missed != {} ==> Unannounced(s.core) && s.core.run.value.leaving.None? && s.core.entries != []
                                   && s.silence.missed == {s.core.entries[|s.core.entries|-1].id})
  }

  lemma UndisturbedStep(s: World, step: Step)
    requires Audible(s) && Enabled(s, step) && Undisturbed(s, step)
    ensures Audible(Then(s, step))
  {
    assert Visible(map[]) == map[];
    if step.RunnerMoves? {
      UndisturbedMove(s, step.step);
    }
  }

  lemma UndisturbedMove(s: World, r: RunnerStep)
    requires Audible(s) && CanMove(s.core, r) && Undisturbed(s, RunnerMoves(r))
    ensures Audible(Then(s, RunnerMoves(r)))
  {
    hide HasContent, Incomplete;
  }

  lemma {:induction false} UndisturbedRun(s: World, steps: seq<Step>)
    requires Audible(s) && Follows(s, steps) && AllUndisturbed(s, steps)
    ensures Audible(Run(s, steps))
    decreases |steps|
  {
    if steps != [] {
      hide Audible, Enabled, Undisturbed;
      UndisturbedStep(s, steps[0]);
      UndisturbedRun(Then(s, steps[0]), steps[1..]);
    }
  }

  /** When nothing of that kind goes wrong, a subscriber that has been given everything shows the run's
      present ledger and drafts; only the first user entry is in the ledger for a moment before its
      update has a number. */
  lemma UndisturbedDelivery(sessionID: string, epoch: string, entries: seq<Entry>, steps: seq<Step>)
    requires var start := Fresh(sessionID, epoch, entries); Follows(start, steps) && AllUndisturbed(start, steps)
    ensures var s := Run(Fresh(sessionID, epoch, entries), steps);
            Quiet(s) ==>
              && s.cut.Some? && Visible(Shown(s).drafts) == Visible(Drafts(s.core))
              && (!Unannounced(s.core) ==> Shown(s).entries == s.core.entries)
  {
    Delivery(sessionID, epoch, entries, steps);
    UndisturbedRun(Fresh(sessionID, epoch, entries), steps);
    assert Visible(map[]) == map[];
  }

  // ---------- when the connection stands ----------

  /** The connection is not cut from outside, and never more events than the limit wait for a missing one. */
  predicate Uncrowded(s: World, steps: seq<Step>)
    requires Follows(s, steps)
    decreases |steps|
  {
    steps == [] || (!steps[0].ConnectionGone? && |Then(s, steps[0]).listener.pending| <= bufferLimit
                    && Uncrowded(Then(s, steps[0]), steps[1..]))
  }

  lemma StaysUp(init: View, s: World, step: Step)
    requires Inv(init, s) && Enabled(s, step) && !s.listener.done && |s.listener.pending| <= bufferLimit
    requires !step.ConnectionGone? && |Then(s, step).listener.pending| <= bufferLimit
    ensures !Then(s, step).listener.done
  {
    hide WatchSound, NothingLost, Received, Flushed, CanMove, Move, SilenceAfter, GoodLog, SessionView;
    match step
    case ListenerCalled(n) =>
      assert s.log[n-1].epoch == s.epoch;
      EndsExactly(s.listener, s.sessionID, s.log[n-1]);
    case OtherSession(e) => EndsExactly(s.listener, s.sessionID, e);
    case Starts =>
      var l, from := s.listener, s.cut.value.updateSeq;
      FlushExact(Listener(true, s.epoch, from, Above(l.pending, from), l.delivered, l.done));
    case _ =>
  }

  lemma {:induction false} StaysConnected(init: View, s: World, steps: seq<Step>)
    requires Inv(init, s) && Follows(s, steps) && Uncrowded(s, steps) && !s.listener.done && |s.listener.pending| <= bufferLimit
    ensures !Run(s, steps).listener.done
    decreases |steps|
  {
    hide Inv, Enabled, Then;
    if steps != [] {
      StaysUp(init, s, steps[0]);
      StepKeeps(init, s, steps[0]);
      StaysConnected(init, Then(s, steps[0]), steps[1..]);
    }
  }

  lemma NeverCutOff(sessionID: string, epoch: string, entries: seq<Entry>, steps: seq<Step>)
    requires var start := Fresh(sessionID, epoch, entries); Follows(start, steps) && Uncrowded(start, steps)
    ensures !Run(Fresh(sessionID, epoch, entries), steps).listener.done
  {
    FreshInv(sessionID, epoch, entries);
    StaysConnected(View(entries, map[]), Fresh(sessionID, epoch, entries), steps);
  }

  /** A subscriber is never cut off for anything else: as long as its connection is left alone and its buffer
      does not overflow, it stands, and when no publishing is under way it shows the present ledger and drafts
      apart from what happened silently. */
  lemma ServedSubscriber(sessionID: string, epoch: string, entries: seq<Entry>, steps: seq<Step>)
    requires var start := Fresh(sessionID, epoch, entries); Follows(start, steps) && Uncrowded(start, steps)
    ensures var s := Run(Fresh(sessionID, epoch, entries), steps);
            && !s.listener.done
            && (s.listener.ready && s.inFlight == {} && s.calling == {} ==>
                  && s.cut.Some? && s.listener.through == |s.log|
                  && Shown(s).entries == Without(s.core.entries, s.silence.missed)
                  && Visible(Shown(s).drafts) == Visible(Streaming(s.core)) + s.silence.lost)
  {
    hide Shown, Visible, Without, Streaming, Follows, Run, Uncrowded, Fresh, Kept, Drafts, Counter;
    NeverCutOff(sessionID, epoch, entries, steps);
    Delivery(sessionID, epoch, entries, steps);
  }

  // ---------- the two ways to fall silent do occur ----------

  ghost predicate Reachable(s: World) {
    exists steps :: Follows(Fresh("s", "e", []), steps) && Run(Fresh("s", "e", []), steps) == s
  }

  lemma {:induction false} RunNext(s: World, steps: seq<Step>, step: Step)
    requires Follows(s, steps) && Enabled(Run(s, steps), step)
    ensures Follows(s, steps + [step]) && Run(s, steps + [step]) == Then(Run(s, steps), step)
    decreases |steps|
  {
    hide Enabled, Then;
    var more := steps + [step];
    if steps == [] {
      assert more[1..] == [];
    } else {
      assert more[0] == steps[0] && more[1..] == steps[1..] + [step];
      RunNext(Then(s, steps[0]), steps[1..], step);
    }
  }

  lemma ReachNext(s: World, step: Step) returns (next: World)
    requires Reachable(s) && Enabled(s, step)
    ensures next == Then(s, step) && Reachable(next)
  {
    next := Then(s, step);
    var steps :| Follows(Fresh("s", "e", []), steps) && Run(Fresh("s", "e", []), steps) == s;
    RunNext(Fresh("s", "e", []), steps, step);
  }

  lemma FreshReachable() returns (s: World)
    ensures s == Fresh("s", "e", []) && Reachable(s)
  {
    s := Fresh("s", "e", []);
    assert Follows(s, []) && Run(s, []) == s;
  }

  const firstEntry: Entry := Entry("u", "", 1, Message(None, User, [], false, "r", "", "", nothingCarried))
  const firstEvent: Event := Event("s", "e", 1, Landed(firstEntry))

  function RunningCore(l: LiveState): Core {
    Core([firstEntry], Some(ActiveRun(Live, l, None)), 0, {})
  }

  /** A run is started and announced before anybody listens. */
  lemma Announced() returns (s: World)
    ensures Reachable(s)
    ensures s == World("s", "e", RunningCore(LiveState(1, map[], {"u"}, 1, 1)), [firstEvent], {}, {}, None, None, silent, newListener)
  {
    s := FreshReachable();
    s := ReachNext(s, RunnerMoves(Begin));
    s := ReachNext(s, RunnerMoves(AppendFirst(firstEntry)));
    assert s.core.entries == [firstEntry] && s.silence == Silence({"u"}, map[]);
    s := ReachNext(s, RunnerMoves(AnnounceFirst));
    assert s.silence == silent && s.log == [firstEvent] && s.inFlight == {1};
    s := ReachNext(s, PublishBegins(1));
    assert s.inFlight == {};
  }

  function ListeningWorld(l: LiveState, log: seq<Event>, inFlight: set<nat>, calling: set<nat>, lost: map<Id, Draft>, heard: Listener): World {
    World("s", "e", RunningCore(l), log, inFlight, calling, Some(1), Some(Snapshot([firstEntry], map[], 1)), Silence({}, lost), heard)
  }

  /** And then watched from a snapshot on. */
  lemma Watching() returns (s: World)
    ensures Reachable(s)
    ensures s == ListeningWorld(LiveState(1, map[], {"u"}, 1, 1), [firstEvent], {}, {}, map[], Listener(true, "e", 1, map[], [], false))
  {
    s := Announced();
    s := ReachNext(s, Subscribes);
    assert Visible(map[]) == map[];
    s := ReachNext(s, CutsSnapshot);
    assert s.listener == newListener;
    assert Above(map[], 1) == map[];
    s := ReachNext(s, Starts);
  }

  lemma NextIsDelivered(l: Listener, e: Event)
    requires l == Listener(true, "e", l.through, map[], l.delivered, false) && e.updateSeq == l.through + 1
    requires e.sessionID == "s" && e.epoch == "e"
    ensures Received(l, "s", e) == Listener(true, "e", l.through + 1, map[], l.delivered + [e], false)
  {
    var added := l.(pending := l.pending[e.updateSeq := e]);
    var flushed := Listener(true, "e", l.through + 1, map[], l.delivered + [e], false);
    assert added.pending - {e.updateSeq} == map[];
    assert Flushed(flushed) == flushed;
    assert Flushed(added) == flushed;
  }

  /** One numbered event all the way to the subscriber. */
  lemma Given(s: World) returns (next: World)
    requires Reachable(s) && s.sessionID == "s" && s.epoch == "e" && s.registered.Some? && |s.log| > 0
    requires s.inFlight == {|s.log|} && s.calling == {}
    requires var l, e := s.listener, s.log[|s.log|-1];
             l == Listener(true, "e", |s.log| - 1, map[], l.delivered, false)
             && e.updateSeq == |s.log| && e.sessionID == "s" && e.epoch == "e"
    ensures Reachable(next)
    ensures next == s.(inFlight := {}, listener := Listener(true, "e", |s.log|, map[], s.listener.delivered + [s.log[|s.log|-1]], false))
  {
    var n := |s.log|;
    next := ReachNext(s, PublishBegins(n));
    assert next == s.(inFlight := {}, calling := {n});
    NextIsDelivered(s.listener, s.log[n-1]);
    next := ReachNext(next, ListenerCalled(n));
    assert next.calling == {};
  }

  const summaryDraft: Draft := Draft("c", 1, [Block("reasoning", "x", None, None, None, None)])

  lemma SummaryText()
    ensures DraftText([], "reasoning", "x", 1) == summaryDraft.blocks && HasContent(summaryDraft.blocks)
  {
    var r := DraftText([], "reasoning", "x", 1);
    assert r[0] == Extended(BlockAt([], 0), "reasoning", "x");
    assert [] + "x" == "x" && "" + "x" == "x";
    assert r == [r[0]];
    assert summaryDraft.blocks[0].text != "";
  }

  lemma SummaryStarts(s: World) returns (next: World)
    requires Reachable(s)
    requires s == ListeningWorld(LiveState(1, map[], {"u"}, 1, 1), [firstEvent], {}, {}, map[], Listener(true, "e", 1, map[], [], false))
    ensures Reachable(next) && next.log == [firstEvent, Event("s", "e", 2, Started("c", 1))]
    ensures next == ListeningWorld(LiveState(2, map["c" := Draft("c", 1, [])], {"u"}, 1, 1), next.log, {}, {}, map[], next.listener)
    ensures next.listener == Listener(true, "e", 2, map[], next.listener.delivered, false)
  {
    next := ReachNext(s, RunnerMoves(StartDraft("c")));
    assert next.log == [firstEvent, Event("s", "e", 2, Started("c", 1))];
    next := Given(next);
  }

  /** An automatic compaction streams text to a quiet subscriber. */
  lemma Summarising() returns (s: World)
    ensures Reachable(s) && s.registered.Some? && Quiet(s)
    ensures s.core == RunningCore(LiveState(3, map["c" := summaryDraft], {"u"}, 1, 1)) && s.silence == silent
  {
    s := Watching();
    s := SummaryStarts(s);
    SummaryText();
    hide DraftText, HasContent;
    var log := s.log;
    s := ReachNext(s, RunnerMoves(StreamDelta("c", "reasoning", "x", 1)));
    assert s.log == log + [Event("s", "e", 3, Delta("c", "reasoning", "x", 1, 1))];
    assert s.core.run.value.state.drafts["c"] == summaryDraft;
    assert s.core.run.value.state.drafts == map["c" := summaryDraft];
    s := Given(s);
  }

  /** When the compaction then fails, the run takes its draft back without an update: a subscriber that has
      been given everything goes on showing it. */
  lemma DroppedDraftStays()
    ensures exists s :: Reachable(s) && Quiet(s) && s.cut.Some?
              && "c" in Visible(Shown(s).drafts) && Drafts(s.core) == map[]
  {
    var s := Summarising();
    SummaryText();
    s := ReachNext(s, RunnerMoves(DropDraft("c")));
    assert s.silence.lost == map["c" := summaryDraft] && Drafts(s.core) == map[];
    ReachableQuiet(s);
  }

  lemma ReachableQuiet(s: World)
    requires Reachable(s) && Quiet(s)
    ensures s.cut.Some?
    ensures Shown(s).entries == Without(s.core.entries, s.silence.missed)
    ensures Visible(Shown(s).drafts) == Visible(Streaming(s.core)) + s.silence.lost
  {
    var steps :| Follows(Fresh("s", "e", []), steps) && Run(Fresh("s", "e", []), steps) == s;
    Delivery("s", "e", [], steps);
  }

  /** A subscriber that watches an idle session. */
  lemma WatchingIdle() returns (s: World)
    ensures Reachable(s)
    ensures s == World("s", "e", Core([], None, 0, {}), [], {}, {}, Some(0), Some(Snapshot([], map[], 0)), silent,
                       Listener(true, "e", 0, map[], [], false))
  {
    s := FreshReachable();
    s := ReachNext(s, Subscribes);
    assert Visible(map[]) == map[];
    s := ReachNext(s, CutsSnapshot);
    assert Above(map[], 0) == map[];
    s := ReachNext(s, Starts);
  }

  /** When the record of a run cannot be saved, its user entry stays in the ledger and no update ever
      tells of it. */
  lemma MissedEntryStays()
    ensures exists s :: Reachable(s) && Quiet(s) && s.cut.Some? && s.core.run.None?
              && s.core.entries == [firstEntry] && Shown(s).entries == []
  {
    var s := WatchingIdle();
    s := ReachNext(s, RunnerMoves(Begin));
    s := ReachNext(s, RunnerMoves(AppendFirst(firstEntry)));
    assert s.silence.missed == {"u"} && s.core.entries == [firstEntry];
    s := ReachNext(s, RunnerMoves(ReadClock));
    s := ReachNext(s, RunnerMoves(Release));
    ReachableQuiet(s);
    assert s.core.entries[..0] == [];
  }
}
