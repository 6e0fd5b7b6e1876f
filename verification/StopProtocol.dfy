/** Starting and stopping child runs under every interleaving (internal/subagents/family.go,
    send.go, spawn.go, stop.go, turn.go, delete.go).  Each region under the relation lock is one step; an
    operation keeps its permit in its program counter and may be overtaken between any two steps. */
module StopProtocol {
  import opened Basics
  import opened Delegation

  /** A run of a child session, with the permit and the task's stop count it was accepted under.
      `live`: registered with the runner; `active`: not yet ended; `stopCalled`: `StopRun` was called
      for it; `announced`: its start notification has been handled, `coveredThen` says whether a stop
      had crossed its permit by then; `looping`: its loop has been entered; `endedUncovered`: it was
      over before any stop crossed its permit. */
  datatype Run = Run(session: SessionID, task: TaskID, permit: Permit, stopGeneration: nat,
                     live: bool, active: bool, canceled: bool, stopCalled: bool,
                     announced: bool, coveredThen: bool, looping: bool, endedUncovered: bool)

  /** Where an operation stands.  From `SendLocked` on it holds the task's own lock. */
  datatype Operation =
    | SpawnPermitted(permit: Permit)
    | SpawnPublished(task: TaskID, permit: Permit)
    | SendPermitted(task: TaskID, permit: Permit, stopGeneration: nat)
    | SendLocked(task: TaskID, permit: Permit, stopGeneration: nat)
    | SendChecked(task: TaskID, permit: Permit, stopGeneration: nat)
    | SendIdle(task: TaskID, permit: Permit, stopGeneration: nat)
    | Prepared(task: TaskID, permit: Permit, stopGeneration: nat)
    | Passed(task: TaskID, permit: Permit, stopGeneration: nat)
    | StartedRun(task: TaskID, permit: Permit, stopGeneration: nat, run: RunID)

  type OpID = nat

  /** `current` is the runner's registered run of a session; `roots` are the active runs of sessions
      that are nobody's child. */
  datatype World = World(
    relations: Relations, families: map<SessionID, Family>, closed: bool, deleted: set<SessionID>, used: set<TaskID>,
    runs: map<RunID, Run>, current: map<SessionID, RunID>, roots: map<SessionID, RunID>,
    ops: map<OpID, Operation>, holder: map<TaskID, OpID>)

  datatype Step =
    | SpawnAdmits(op: OpID, parent: SessionID, parentRun: RunID)
    | SpawnPublishes(op: OpID, task: TaskID, child: SessionID)
    | SpawnSaves(op: OpID)
    | SpawnForgets(op: OpID)
    | SendBegins(op: OpID, parent: SessionID, parentRun: RunID, task: TaskID)
    | SendLocks(op: OpID)
    | SendChecks(op: OpID)
    | SendFindsIdle(op: OpID)
    | SendRenews(op: OpID)
    | FirstCheck(op: OpID)
    | Starts(op: OpID, run: RunID)
    | SecondCheck(op: OpID)
    | Abandons(op: OpID)
    | StopsTask(task: TaskID, tree: set<SessionID>)
    | StopsFamily(root: SessionID, tree: set<SessionID>)
    | Deletes(roots: set<SessionID>, forest: set<SessionID>)
    | StartHandled(run: RunID)
    | LoopEntered(run: RunID)
    | RunEnds(run: RunID)
    | RunReleased(run: RunID)
    | RunCanceled(run: RunID)
    | RootChanges(session: SessionID, rootRun: Option<RunID>)
    | Closes

  // ---------- reading the state ----------

  predicate ActiveChild(w: World, s: SessionID) {
    s in w.current && w.current[s] in w.runs && w.runs[w.current[s]].active
  }

  /** What `runner.State` reports. */
  function ActiveRuns(w: World): map<SessionID, RunID> {
    map s | s in w.current.Keys + w.roots.Keys && (ActiveChild(w, s) || s in w.roots) ::
      if ActiveChild(w, s) then w.current[s] else w.roots[s]
  }

  function ServiceOf(w: World): Service {
    Service(w.relations, w.families, ActiveRuns(w), {})
  }

  function Generation(w: World, s: SessionID): nat {
    FamilyOf(w.families, s).generation
  }

  /** `admissionErrorLocked`. */
  predicate AdmissionError(w: World, p: Permit) {
    var family := FamilyOf(w.families, p.parent);
    w.closed || p.parent in w.deleted || family.generation != p.generation || (p.runID != "" && family.stoppedRunID == p.runID)
  }

  /** `childStartError`. */
  predicate StartError(w: World, t: TaskID)
    requires t in w.relations.coords
  {
    AdmissionError(w, w.relations.coords[t].admission) || w.relations.coords[t].stopRequested
  }

  /** A stop of the task, of its parent or of anything above has crossed this permit. */
  predicate Crossed(w: World, t: TaskID, p: Permit, stopGeneration: nat) {
    Generation(w, p.parent) > p.generation
    || (t in w.relations.coords && w.relations.coords[t].stopGeneration > stopGeneration)
  }

  predicate Covered(w: World, r: Run) {
    Crossed(w, r.task, r.permit, r.stopGeneration)
  }

  /** The operation has registered the run and not yet checked again. */
  ghost predicate InWindow(w: World, run: RunID) {
    exists o :: o in w.ops && w.ops[o].StartedRun? && w.ops[o].run == run
  }

  // ---------- steps ----------

  predicate At(w: World, o: OpID, t: TaskID) {
    t in w.relations.coords && t in w.holder && w.holder[t] == o
  }

  ghost predicate Enabled(w: World, step: Step) {
    match step
    case SpawnAdmits(o, parent, run) =>
      o !in w.ops && Admission(ServiceOf(w), w.deleted, w.closed, parent, run).Ok?
    case SpawnPublishes(o, t, c) =>
      o in w.ops && w.ops[o].SpawnPermitted? && t !in w.used && t !in w.relations.coords
      && c !in w.relations.childSessions && c !in w.current && c !in w.roots
    case SpawnSaves(o) => o in w.ops && w.ops[o].SpawnPublished?
    case SpawnForgets(o) => o in w.ops && w.ops[o].SpawnPublished?
    case SendBegins(o, parent, run, t) =>
      && o !in w.ops && !w.closed && t in w.relations.coords && w.relations.coords[t].parent == parent
      && (run != "" ==> Admission(ServiceOf(w), {}, w.closed, parent, run).Ok?)
    case SendLocks(o) =>
      o in w.ops && w.ops[o].SendPermitted? && w.ops[o].task in w.relations.coords && w.ops[o].task !in w.holder
    case SendChecks(o) => o in w.ops && w.ops[o].SendLocked?
    case SendFindsIdle(o) =>
      o in w.ops && w.ops[o].SendChecked? && w.ops[o].task in w.relations.coords
      && !ActiveChild(w, w.relations.coords[w.ops[o].task].child)
    case SendRenews(o) => o in w.ops && w.ops[o].SendIdle?
    case FirstCheck(o) => o in w.ops && w.ops[o].Prepared?
    case Starts(o, r) =>
      o in w.ops && w.ops[o].Passed? && r !in w.runs && (forall s :: s in w.roots ==> w.roots[s] != r)
      && w.ops[o].task in w.relations.coords && w.relations.coords[w.ops[o].task].child !in w.current
    case SecondCheck(o) => o in w.ops && w.ops[o].StartedRun?
    case Abandons(o) => o in w.ops && !w.ops[o].StartedRun?
    case StopsTask(t, tree) => !w.closed && t in w.relations.coords && IsTree(w.relations, w.relations.coords[t].child, tree)
    case StopsFamily(root, tree) => !w.closed && root != "" && IsTree(w.relations, root, tree)
    case Deletes(roots, forest) =>
      && !w.closed && IsForest(w.relations, roots, forest)
      && (forall s :: s in forest ==> s !in w.deleted && !ActiveChild(w, s) && s !in w.roots)
      && (forall t :: t in TasksUnder(w.relations, forest) ==> t !in w.holder)
    case StartHandled(r) => r in w.runs && w.runs[r].active && !w.runs[r].announced
    case LoopEntered(r) => r in w.runs && w.runs[r].active && w.runs[r].announced && !w.runs[r].canceled
    case RunEnds(r) => r in w.runs && w.runs[r].active
    case RunReleased(r) => r in w.runs && w.runs[r].live
    case RunCanceled(r) => r in w.runs
    case RootChanges(s, run) => s !in w.relations.childSessions && (run.Some? ==> run.value !in w.runs)
    case Closes => true
  }

  /** The operation is over; the lock it may hold is free. */
  function Ended(w: World, o: OpID): (r: World)
    ensures r.ops == w.ops - {o} && r.relations == w.relations
  {
    w.(ops := w.ops - {o}, holder := map t | t in w.holder && w.holder[t] != o :: w.holder[t])
  }

  function Goes(w: World, o: OpID, to: Operation): World {
    w.(ops := w.ops[o := to])
  }

  function StopCalls(runs: map<RunID, Run>, stopped: set<RunID>): map<RunID, Run> {
    map r | r in runs :: if r in stopped then runs[r].(canceled := true, stopCalled := true) else runs[r]
  }

  /** `stopSessionTreeLocked` over the sessions of `tree`. */
  function TreeStopped(w: World, tree: set<SessionID>): World {
    var s := StoppedTree(ServiceOf(w), tree);
    w.(relations := s.relations, families := s.families, runs := StopCalls(w.runs, s.canceled))
  }

  /** `ReserveDeletion`: the sessions take no more tasks, their tasks go, and their counters start anew. */
  function TreeDeleted(w: World, forest: set<SessionID>): World {
    w.(relations := Pruned(w.relations, TasksUnder(w.relations, forest)), families := w.families - forest, deleted := w.deleted + forest)
  }

  function TaskMarked(w: World, t: TaskID): World
    requires t in w.relations.coords
  {
    w.(relations := w.relations.(coords := w.relations.coords[t := Flagged(w.relations.coords[t])]))
  }

  /** `StopRun`: only a registered run is cancelled. */
  function RunStopped(w: World, r: RunID): World
    requires r in w.runs
  {
    w.(runs := w.runs[r := w.runs[r].(stopCalled := true, canceled := w.runs[r].canceled || w.runs[r].live)])
  }

  ghost function Then(w: World, step: Step): World
    requires Enabled(w, step)
  {
    match step
    case SpawnAdmits(o, parent, run) => Goes(w, o, SpawnPermitted(Permit(parent, run, Generation(w, parent))))
    case SpawnPublishes(o, t, c) =>
      var p := w.ops[o].permit;
      if AdmissionError(w, p) then Ended(w, o)
      else Goes(w, o, SpawnPublished(t, p)).(
             relations := Published(w.relations, t, Coord(p.parent, c, p, false, 0)),
             used := w.used + {t}, holder := w.holder[t := o])
    case SpawnSaves(o) => Goes(w, o, Prepared(w.ops[o].task, w.ops[o].permit, 0))
    case SpawnForgets(o) =>
      var t := w.ops[o].task;
      if t in w.relations.coords
      then Ended(w, o).(relations := Forgotten(w.relations, t, w.relations.coords[t].parent, w.relations.coords[t].child))
      else Ended(w, o)
    case SendBegins(o, parent, run, t) =>
      Goes(w, o, SendPermitted(t, Permit(parent, run, Generation(w, parent)), w.relations.coords[t].stopGeneration))
    case SendLocks(o) =>
      var SendPermitted(t, p, g) := w.ops[o];
      Goes(w, o, SendLocked(t, p, g)).(holder := w.holder[t := o])
    case SendChecks(o) =>
      var SendLocked(t, p, g) := w.ops[o];
      if AdmissionError(w, p) || t !in w.relations.coords || w.relations.coords[t].stopGeneration != g then Ended(w, o)
      else Goes(w, o, SendChecked(t, p, g))
    case SendFindsIdle(o) =>
      var SendChecked(t, p, g) := w.ops[o];
      Goes(w, o, SendIdle(t, p, g))
    case SendRenews(o) =>
      var SendIdle(t, p, g) := w.ops[o];
      if AdmissionError(w, p) || t !in w.relations.coords || w.relations.coords[t].stopGeneration != g then Ended(w, o)
      else Goes(w, o, Prepared(t, p, g)).(
             relations := w.relations.(coords := w.relations.coords[t := w.relations.coords[t].(admission := p, stopRequested := false)]))
    case FirstCheck(o) =>
      var Prepared(t, p, g) := w.ops[o];
      if t !in w.relations.coords || StartError(w, t) then Ended(w, o) else Goes(w, o, Passed(t, p, g))
    case Starts(o, r) =>
      var Passed(t, p, g) := w.ops[o];
      var c := w.relations.coords[t].child;
      Goes(w, o, StartedRun(t, p, g, r)).(
        runs := w.runs[r := Run(c, t, p, g, true, true, false, false, false, false, false, false)],
        current := w.current[c := r])
    case SecondCheck(o) =>
      var StartedRun(t, p, g, r) := w.ops[o];
      if t in w.relations.coords && r in w.runs && StartError(w, t) then Ended(RunStopped(w, r), o) else Ended(w, o)
    case Abandons(o) => Ended(w, o)
    case StopsTask(t, tree) => TreeStopped(TaskMarked(w, t), tree)
    case StopsFamily(_, tree) => TreeStopped(w, tree)
    case Deletes(_, forest) => TreeDeleted(w, forest)
    case StartHandled(r) =>
      var run := w.runs[r];
      var seen := w.(runs := w.runs[r := run.(announced := true, coveredThen := Covered(w, run))]);
      if run.task in w.relations.coords && StartError(w, run.task) then RunStopped(seen, r) else seen
    case LoopEntered(r) => w.(runs := w.runs[r := w.runs[r].(looping := true)])
    case RunEnds(r) => w.(runs := w.runs[r := Over(w, w.runs[r])])
    case RunReleased(r) =>
      var run := if w.runs[r].active then Over(w, w.runs[r]) else w.runs[r];
      w.(runs := w.runs[r := run.(live := false)], current := w.current - {w.runs[r].session})
    case RunCanceled(r) => w.(runs := w.runs[r := w.runs[r].(canceled := true)])
    case RootChanges(s, run) => w.(roots := if run.Some? then w.roots[s := run.value] else w.roots - {s})
    case Closes => w.(closed := true)
  }

  function Over(w: World, r: Run): Run {
    r.(active := false, endedUncovered := !Covered(w, r))
  }

  // ---------- invariants ----------

  /** The counter only goes up, and it has gone up if the permit's own run was stopped. */
  predicate GenerationSound(w: World, p: Permit) {
    && p.generation <= Generation(w, p.parent)
    && (p.runID != "" && FamilyOf(w.families, p.parent).stoppedRunID == p.runID ==> p.generation < Generation(w, p.parent))
  }

  /** What a permit says stays a lower bound of the counters, until its session is deleted. */
  predicate PermitSound(w: World, t: TaskID, p: Permit, g: nat) {
    (p.parent !in w.deleted ==> GenerationSound(w, p))
    && (t in w.relations.coords ==> w.relations.coords[t].parent == p.parent && g <= w.relations.coords[t].stopGeneration)
  }

  /** The task's record belongs to this permit, and any stop since is marked on it. */
  predicate Owns(w: World, t: TaskID, p: Permit, g: nat) {
    t in w.relations.coords
    && w.relations.coords[t].admission == p
    && (w.relations.coords[t].stopGeneration > g <==> w.relations.coords[t].stopRequested)
  }

  predicate Idle(w: World, t: TaskID) {
    t in w.relations.coords && !ActiveChild(w, w.relations.coords[t].child)
  }

  predicate NeverRun(w: World, t: TaskID) {
    forall r :: r in w.runs ==> w.runs[r].task != t
  }

  predicate OpSound(w: World, o: OpID)
    requires o in w.ops
  {
    match w.ops[o]
    case SpawnPermitted(p) => p.parent !in w.deleted ==> GenerationSound(w, p)
    case SpawnPublished(t, p) => At(w, o, t) && PermitSound(w, t, p, 0) && Owns(w, t, p, 0) && Idle(w, t) && t in w.used && NeverRun(w, t)
    case SendPermitted(t, p, g) => PermitSound(w, t, p, g) && t in w.used
    case SendLocked(t, p, g) => At(w, o, t) && PermitSound(w, t, p, g)
    case SendChecked(t, p, g) => At(w, o, t) && PermitSound(w, t, p, g)
    case SendIdle(t, p, g) => At(w, o, t) && PermitSound(w, t, p, g) && Idle(w, t)
    case Prepared(t, p, g) => At(w, o, t) && PermitSound(w, t, p, g) && Owns(w, t, p, g) && Idle(w, t)
    case Passed(t, p, g) => At(w, o, t) && PermitSound(w, t, p, g) && Owns(w, t, p, g) && Idle(w, t)
    case StartedRun(t, p, g, r) =>
      && At(w, o, t) && PermitSound(w, t, p, g) && Owns(w, t, p, g)
      && r in w.runs && w.runs[r].task == t && w.runs[r].permit == p && w.runs[r].stopGeneration == g
  }

  predicate RunFits(w: World, id: RunID)
    requires id in w.runs
  {
    var r := w.runs[id];
    && r.task in w.used && (r.task in w.relations.coords ==> w.relations.coords[r.task].child == r.session)
    && PermitSound(w, r.task, r.permit, r.stopGeneration)
    && (r.live <==> r.session in w.current && w.current[r.session] == id)
    && (r.active ==> r.live && Owns(w, r.task, r.permit, r.stopGeneration))
  }

  /** A run whose permit a stop has crossed was told to stop, was over before, or is still between
      its start and its operation's second check. */
  ghost predicate RunStops(w: World, id: RunID)
    requires id in w.runs
  {
    var r := w.runs[id];
    && (Covered(w, r) ==> r.stopCalled || r.endedUncovered || InWindow(w, id))
    && (r.announced && r.active && Covered(w, r) ==> r.canceled)
    && (r.coveredThen ==> r.announced && r.canceled && !r.looping)
    && (r.looping ==> r.announced)
    && (if r.active then !r.endedUncovered
        else r.endedUncovered || (if r.task in w.relations.coords then Covered(w, r) else r.stopCalled))
  }

  predicate BaseSound(w: World) {
    && Agree(w.relations)
    && w.relations.coords.Keys <= w.used
    && (forall t :: t in w.relations.coords ==> w.relations.coords[t].parent !in w.deleted)
    && (forall s :: s in w.current ==> w.current[s] in w.runs && w.runs[w.current[s]].session == s)
    && (forall t :: t in w.holder ==> w.holder[t] in w.ops)
    && (forall s :: s in w.roots ==> s !in w.relations.childSessions && w.roots[s] !in w.runs)
  }

  predicate OpsSound(w: World) {
    forall o :: o in w.ops ==> OpSound(w, o)
  }

  predicate RunsFit(w: World) {
    forall r :: r in w.runs ==> RunFits(w, r)
  }

  ghost predicate RunsStop(w: World) {
    forall r :: r in w.runs ==> RunStops(w, r)
  }

  ghost predicate Inv(w: World) {
    BaseSound(w) && OpsSound(w) && RunsFit(w) && RunsStop(w)
  }

  // ---------- steps of an operation that touch no run ----------

  /** Everything but the operations and their locks is as before. */
  predicate SameState(w: World, next: World) {
    next.relations == w.relations && next.families == w.families && next.deleted == w.deleted && next.runs == w.runs
    && next.current == w.current
  }

  /** An operation does not notice a step that leaves it, its lock and the state alone. */
  lemma SameOp(w: World, next: World, x: OpID)
    requires x in w.ops && OpSound(w, x) && SameState(w, next) && w.used <= next.used
    requires x in next.ops && next.ops[x] == w.ops[x]
    requires forall t :: t in w.holder && w.holder[t] == x ==> t in next.holder && next.holder[t] == x
    ensures OpSound(next, x)
  {}

  lemma SameRuns(w: World, next: World)
    requires RunsFit(w) && RunsStop(w) && SameState(w, next) && w.used <= next.used
    requires forall o :: o in w.ops && w.ops[o].StartedRun? ==> o in next.ops && next.ops[o] == w.ops[o]
    ensures RunsFit(next) && RunsStop(next)
  {
    forall r | r in next.runs
      ensures RunFits(next, r) && RunStops(next, r)
    {
      assert RunFits(w, r) && RunStops(w, r);
      if InWindow(w, r) {
        var o :| o in w.ops && w.ops[o].StartedRun? && w.ops[o].run == r;
        assert o in next.ops && next.ops[o] == w.ops[o];
      }
    }
  }

  /** A new counter for `o`, or its end, while nothing else changes. */
  lemma OpMoves(w: World, next: World, o: OpID)
    requires Inv(w) && SameState(w, next) && w.used <= next.used && next.relations.coords.Keys <= next.used
    requires forall x :: x != o ==> (x in next.ops <==> x in w.ops)
    requires forall x :: x != o && x in w.ops ==> next.ops[x] == w.ops[x]
    requires forall t :: t in next.holder ==> next.holder[t] in next.ops
    requires forall t :: t in w.holder && w.holder[t] != o ==> t in next.holder && next.holder[t] == w.holder[t]
    requires o in w.ops ==> !w.ops[o].StartedRun?
    requires o in next.ops ==> OpSound(next, o)
    requires forall s :: s in next.roots ==> s !in next.relations.childSessions && next.roots[s] !in next.runs
    ensures Inv(next)
  {
    SameRuns(w, next);
    forall x | x in next.ops
      ensures OpSound(next, x)
    {
      if x != o {
        assert OpSound(w, x);
        SameOp(w, next, x);
      }
    }
  }

  lemma EntrySteps(w: World, step: Step)
    requires Inv(w) && Enabled(w, step) && (step.SpawnAdmits? || step.SendBegins?)
    ensures Inv(Then(w, step))
  {
    hide Agree, RunsFit, RunsStop, StoppedTree, Published, Forgotten, ActiveRuns;
    OpMoves(w, Then(w, step), step.op);
  }

  lemma MovedSteps(w: World, step: Step)
    requires Inv(w) && Enabled(w, step)
    requires step.SpawnSaves? || step.SendLocks? || step.SendFindsIdle? || step.Abandons?
    ensures Inv(Then(w, step))
  {
    hide Agree, RunsFit, RunsStop, StoppedTree, Published, Forgotten, ActiveRuns;
    assert OpSound(w, step.op);
    OpMoves(w, Then(w, step), step.op);
  }

  lemma CheckEffect(w: World, step: Step)
    requires Enabled(w, step) && (step.SendChecks? || step.FirstCheck?)
    ensures var o, next := step.op, Then(w, step);
            && o in w.ops
            && (next == Ended(w, o)
                || (w.ops[o].SendLocked? && next == Goes(w, o, SendChecked(w.ops[o].task, w.ops[o].permit, w.ops[o].stopGeneration)))
                || (w.ops[o].Prepared? && next == Goes(w, o, Passed(w.ops[o].task, w.ops[o].permit, w.ops[o].stopGeneration))))
            && !w.ops[o].StartedRun?
  {
    hide AdmissionError, StoppedTree, Published, Forgotten;
  }

  lemma EndedKeeps(w: World, o: OpID)
    requires Inv(w) && o in w.ops && !w.ops[o].StartedRun?
    ensures Inv(Ended(w, o))
  {
    hide Agree, RunsFit, RunsStop, OpsSound, OpSound;
    OpMoves(w, Ended(w, o), o);
  }

  lemma GoesKeeps(w: World, o: OpID, to: Operation)
    requires Inv(w) && o in w.ops && !w.ops[o].StartedRun? && OpSound(Goes(w, o, to), o)
    ensures Inv(Goes(w, o, to))
  {
    hide Agree, RunsFit, RunsStop, OpsSound, OpSound;
    OpMoves(w, Goes(w, o, to), o);
  }

  /** What an operation knows it still knows after a check. */
  lemma StillSound(w: World, o: OpID, to: Operation)
    requires o in w.ops && OpSound(w, o)
    requires (w.ops[o].SendLocked? && to == SendChecked(w.ops[o].task, w.ops[o].permit, w.ops[o].stopGeneration))
             || (w.ops[o].Prepared? && to == Passed(w.ops[o].task, w.ops[o].permit, w.ops[o].stopGeneration))
    ensures OpSound(Goes(w, o, to), o)
  {}

  lemma CheckSteps(w: World, step: Step)
    requires Inv(w) && Enabled(w, step) && (step.SendChecks? || step.FirstCheck?)
    ensures Inv(Then(w, step))
  {
    var o, next := step.op, Then(w, step);
    CheckEffect(w, step);
    assert OpSound(w, o);
    hide *;
    if next == Ended(w, o) {
      EndedKeeps(w, o);
      assert Inv(Then(w, step));
    } else {
      var to := if w.ops[o].SendLocked? then SendChecked(w.ops[o].task, w.ops[o].permit, w.ops[o].stopGeneration)
                else Passed(w.ops[o].task, w.ops[o].permit, w.ops[o].stopGeneration);
      StillSound(w, o, to);
      GoesKeeps(w, o, to);
      assert Inv(Then(w, step));
    }
  }

  lemma OutsideEffect(w: World, step: Step)
    requires Enabled(w, step) && (step.RootChanges? || step.Closes?)
    ensures var next := Then(w, step);
            && SameState(w, next) && next.ops == w.ops && next.holder == w.holder && next.used == w.used
            && (step.RootChanges? ==> step.session !in w.relations.childSessions)
            && forall s :: s in next.roots ==>
                 (s in w.roots && next.roots[s] == w.roots[s]) || (step.RootChanges? && s == step.session && next.roots[s] !in w.runs)
  {
    hide StoppedTree, Published, Forgotten;
  }

  lemma OutsideSteps(w: World, step: Step)
    requires Inv(w) && Enabled(w, step) && (step.RootChanges? || step.Closes?)
    ensures Inv(Then(w, step))
  {
    var next := Then(w, step);
    OutsideEffect(w, step);
    hide Then, Enabled, Agree, RunsFit, RunsStop;
    SameRuns(w, next);
    forall x | x in next.ops
      ensures OpSound(next, x)
    {
      assert OpSound(w, x);
      hide OpSound;
      SameOp(w, next, x);
    }
  }

  // ---------- publishing and forgetting a task ----------

  /** A task nobody has dealt with before comes into being. */
  lemma PublishKeeps(w: World, step: Step)
    requires Inv(w) && Enabled(w, step) && step.SpawnPublishes?
    ensures Inv(Then(w, step))
  {
    var o, t, c, p := step.op, step.task, step.child, w.ops[step.op].permit;
    var next := Then(w, step);
    assert OpSound(w, o);
    if AdmissionError(w, p) {
      hide Agree, RunsFit, RunsStop;
      OpMoves(w, next, o);
    } else {
      PublishAgrees(w.relations, t, Coord(p.parent, c, p, false, 0));
      PublishedRuns(w, next, step);
      PublishedOps(w, next, step);
      PublishedBase(w, next, step);
    }
  }

  predicate JustPublished(w: World, next: World, o: OpID, t: TaskID, c: SessionID) {
    && o in w.ops && w.ops[o].SpawnPermitted? && t !in w.used && t !in w.relations.coords
    && c !in w.relations.childSessions && c !in w.current && c !in w.roots
    && var p := w.ops[o].permit;
       p.parent !in w.deleted
       && next == w.(ops := w.ops[o := SpawnPublished(t, p)], relations := Published(w.relations, t, Coord(p.parent, c, p, false, 0)),
                  used := w.used + {t}, holder := w.holder[t := o])
  }

  lemma PublishedRun(w: World, next: World, o: OpID, t: TaskID, c: SessionID, r: RunID)
    requires JustPublished(w, next, o, t, c) && r in w.runs && RunFits(w, r) && RunStops(w, r)
    ensures r in next.runs && RunFits(next, r) && RunStops(next, r)
  {
    SameWindow(w, next, r);
    hide InWindow;
  }

  lemma PublishedRuns(w: World, next: World, step: Step)
    requires Inv(w) && step.SpawnPublishes? && JustPublished(w, next, step.op, step.task, step.child)
    ensures RunsFit(next) && RunsStop(next)
  {
    hide BaseSound, OpsSound;
    forall r | r in next.runs
      ensures RunFits(next, r) && RunStops(next, r)
    {
      assert RunFits(w, r) && RunStops(w, r);
      hide RunFits, RunStops;
      PublishedRun(w, next, step.op, step.task, step.child, r);
    }
  }

  lemma SameFamilies(w: World, next: World)
    requires next.families == w.families
    ensures forall p :: GenerationSound(next, p) == GenerationSound(w, p)
    ensures forall s :: Generation(next, s) == Generation(w, s)
  {}

  /** Windows carry over when no operation enters or leaves one. */
  lemma SameWindow(w: World, next: World, r: RunID)
    requires forall o :: o in w.ops && w.ops[o].StartedRun? ==> o in next.ops && next.ops[o] == w.ops[o]
    ensures InWindow(w, r) ==> InWindow(next, r)
  {
    if InWindow(w, r) {
      var o :| o in w.ops && w.ops[o].StartedRun? && w.ops[o].run == r;
      assert o in next.ops && next.ops[o] == w.ops[o];
    }
  }

  lemma PublishedOps(w: World, next: World, step: Step)
    requires Inv(w) && step.SpawnPublishes? && JustPublished(w, next, step.op, step.task, step.child)
    ensures OpsSound(next)
  {
    forall r | r in w.runs
      ensures w.runs[r].task != step.task
    {
      assert RunFits(w, r);
    }
    forall x | x in next.ops
      ensures OpSound(next, x)
    {
      assert OpSound(w, x);
      if x != step.op { PublishedOther(w, next, step, x); }
    }
  }

  lemma PublishedOther(w: World, next: World, step: Step, x: OpID)
    requires BaseSound(w) && x in w.ops && OpSound(w, x) && step.SpawnPublishes? && x != step.op
    requires JustPublished(w, next, step.op, step.task, step.child)
    ensures OpSound(next, x)
  {
    hide Agree;
    SameFamilies(w, next);
    hide GenerationSound;
    assert next.relations.coords == w.relations.coords[step.task := next.relations.coords[step.task]];
  }

  lemma PublishedBase(w: World, next: World, step: Step)
    requires BaseSound(w) && step.SpawnPublishes? && JustPublished(w, next, step.op, step.task, step.child) && Agree(next.relations)
    ensures BaseSound(next)
  {
    hide Agree;
  }

  predicate JustForgotten(w: World, next: World, o: OpID) {
    && o in w.ops && w.ops[o].SpawnPublished? && w.ops[o].task in w.relations.coords
    && var t := w.ops[o].task;
       next == Ended(w, o).(relations := Forgotten(w.relations, t, w.relations.coords[t].parent, w.relations.coords[t].child))
  }

  /** A task whose record could not be saved is taken back before anything ran for it. */
  lemma ForgetKeeps(w: World, step: Step)
    requires Inv(w) && Enabled(w, step) && step.SpawnForgets?
    ensures Inv(Then(w, step))
  {
    var o, next, t := step.op, Then(w, step), w.ops[step.op].task;
    assert OpSound(w, o);
    assert JustForgotten(w, next, o);
    ForgetAgrees(w.relations, t);
    hide Then, Enabled, Forgotten;
    ForgottenRuns(w, next, o);
    ForgottenOps(w, next, o);
    ForgottenRest(w, next, o);
  }

  lemma ForgottenRest(w: World, next: World, o: OpID)
    requires Inv(w) && JustForgotten(w, next, o) && Agree(next.relations)
    ensures BaseSound(next)
  {
    hide Agree;
  }

  lemma ForgottenRuns(w: World, next: World, o: OpID)
    requires Inv(w) && JustForgotten(w, next, o)
    ensures RunsFit(next) && RunsStop(next)
  {
    assert OpSound(w, o);
    forall r | r in next.runs
      ensures RunFits(next, r) && RunStops(next, r)
    {
      assert RunFits(w, r) && RunStops(w, r);
      hide BaseSound, OpsSound, RunsFit, RunsStop;
      ForgottenRun(w, next, o, r);
    }
  }

  lemma ForgottenRun(w: World, next: World, o: OpID, r: RunID)
    requires r in w.runs && RunFits(w, r) && RunStops(w, r) && JustForgotten(w, next, o) && NeverRun(w, w.ops[o].task)
    ensures r in next.runs && RunFits(next, r) && RunStops(next, r)
  {
    SameWindow(w, next, r);
    hide InWindow;
    assert next.relations.coords == w.relations.coords - {w.ops[o].task};
  }

  lemma ForgottenOps(w: World, next: World, o: OpID)
    requires Inv(w) && JustForgotten(w, next, o)
    ensures OpsSound(next)
  {
    assert OpSound(w, o);
    forall x | x in next.ops
      ensures OpSound(next, x)
    {
      assert OpSound(w, x);
      ForgottenOther(w, next, o, x);
    }
  }

  lemma ForgottenOther(w: World, next: World, o: OpID, x: OpID)
    requires x in w.ops && OpSound(w, x) && x != o && JustForgotten(w, next, o) && At(w, o, w.ops[o].task)
    ensures OpSound(next, x)
  {
    var t := w.ops[o].task;
    assert next.relations.coords == w.relations.coords - {t};
    assert forall y :: At(w, x, y) ==> y != t && At(next, x, y);
    SameFamilies(w, next);
    hide Forgotten, GenerationSound;
  }

  // ---------- renewing a task for another turn ----------

  predicate JustRenewed(w: World, next: World, o: OpID) {
    && o in w.ops && w.ops[o].SendIdle? && w.ops[o].task in w.relations.coords
    && var SendIdle(t, p, g) := w.ops[o];
       && w.relations.coords[t].stopGeneration == g
       && next == w.(ops := w.ops[o := Prepared(t, p, g)],
                     relations := w.relations.(coords := w.relations.coords[t := w.relations.coords[t].(admission := p, stopRequested := false)]))
  }

  lemma RenewKeeps(w: World, step: Step)
    requires Inv(w) && Enabled(w, step) && step.SendRenews?
    ensures Inv(Then(w, step))
  {
    var o, next := step.op, Then(w, step);
    if next == Ended(w, o) {
      assert OpSound(w, o);
      hide Agree, RunsFit, RunsStop, Then, Enabled;
      OpMoves(w, next, o);
    } else {
      assert JustRenewed(w, next, o);
      hide Then, Enabled;
      RenewedBase(w, next, o);
      RenewedRuns(w, next, o);
      RenewedOps(w, next, o);
    }
  }

  lemma RenewedAgrees(w: World, next: World, o: OpID)
    requires Agree(w.relations) && JustRenewed(w, next, o)
    ensures Agree(next.relations)
  {
    var a, b := w.relations, next.relations;
    assert b.coords.Keys == a.coords.Keys && b.childSessions == a.childSessions && b.parentTasks == a.parentTasks;
    assert forall t :: t in a.coords ==> b.coords[t].parent == a.coords[t].parent && b.coords[t].child == a.coords[t].child;
    hide JustRenewed;
    forall t | t in b.coords
      ensures TaskIndexed(b, t)
    {
      assert TaskIndexed(a, t);
    }
    forall p | p in b.parentTasks
      ensures ListSound(b, p)
    {
      assert ListSound(a, p);
    }
  }

  lemma RenewedBase(w: World, next: World, o: OpID)
    requires Inv(w) && JustRenewed(w, next, o)
    ensures BaseSound(next)
  {
    RenewedAgrees(w, next, o);
    hide OpsSound, RunsFit, RunsStop, Agree;
  }

  lemma RenewedRun(w: World, next: World, o: OpID, r: RunID)
    requires JustRenewed(w, next, o) && OpSound(w, o) && r in w.runs && RunFits(w, r) && RunStops(w, r)
    ensures r in next.runs && RunFits(next, r) && RunStops(next, r)
  {
    SameWindow(w, next, r);
    hide InWindow;
  }

  lemma RenewedRuns(w: World, next: World, o: OpID)
    requires Inv(w) && JustRenewed(w, next, o)
    ensures RunsFit(next) && RunsStop(next)
  {
    assert OpSound(w, o);
    hide BaseSound, OpsSound, OpSound;
    forall r | r in next.runs
      ensures RunFits(next, r) && RunStops(next, r)
    {
      assert RunFits(w, r) && RunStops(w, r);
      hide RunFits, RunStops;
      RenewedRun(w, next, o, r);
    }
  }

  lemma RenewedOps(w: World, next: World, o: OpID)
    requires Inv(w) && JustRenewed(w, next, o)
    ensures OpsSound(next)
  {
    assert OpSound(w, o);
    forall x | x in next.ops
      ensures OpSound(next, x)
    {
      assert OpSound(w, x);
      if x != o { RenewedOther(w, next, o, x); }
    }
  }

  lemma RenewedOther(w: World, next: World, o: OpID, x: OpID)
    requires JustRenewed(w, next, o) && At(w, o, w.ops[o].task) && x in w.ops && OpSound(w, x) && x != o
    ensures OpSound(next, x)
  {
    assert forall y :: At(w, x, y) ==> y != w.ops[o].task && At(next, x, y);
  }

  // ---------- starting, and checking again ----------

  predicate JustStarted(w: World, next: World, o: OpID, r: RunID) {
    && o in w.ops && w.ops[o].Passed? && r !in w.runs && (forall s :: s in w.roots ==> w.roots[s] != r)
    && w.ops[o].task in w.relations.coords
    && var Passed(t, p, g) := w.ops[o];
       var c := w.relations.coords[t].child;
       && c !in w.current
       && next == w.(ops := w.ops[o := StartedRun(t, p, g, r)],
                     runs := w.runs[r := Run(c, t, p, g, true, true, false, false, false, false, false, false)],
                     current := w.current[c := r])
  }

  lemma StartKeeps(w: World, step: Step)
    requires Inv(w) && Enabled(w, step) && step.Starts?
    ensures Inv(Then(w, step))
  {
    var next := Then(w, step);
    assert JustStarted(w, next, step.op, step.run);
    hide Then, Enabled, JustStarted;
    StartedRuns(w, next, step.op, step.run);
    StartedOps(w, next, step.op, step.run);
    hide OpsSound, RunsFit, RunsStop;
    StartedBase(w, next, step.op, step.run);
  }

  lemma StartedBase(w: World, next: World, o: OpID, r: RunID)
    requires BaseSound(w) && JustStarted(w, next, o, r)
    ensures BaseSound(next)
  {
    hide Agree;
  }

  lemma StartedRuns(w: World, next: World, o: OpID, r: RunID)
    requires Inv(w) && JustStarted(w, next, o, r)
    ensures RunsFit(next) && RunsStop(next)
  {
    assert OpSound(w, o);
    forall x | x in next.runs
      ensures RunFits(next, x) && RunStops(next, x)
    {
      if x == r {
        hide BaseSound, OpsSound, RunsFit, RunsStop;
        StartedNewRun(w, next, o, r);
      } else {
        assert RunFits(w, x) && RunStops(w, x);
        hide BaseSound, OpsSound, RunsFit, RunsStop, OpSound;
        StartedOtherRun(w, next, o, r, x);
      }
    }
  }

  /** A run is in its operation's window as soon as it exists. */
  lemma StartedNewRun(w: World, next: World, o: OpID, r: RunID)
    requires o in w.ops && OpSound(w, o) && JustStarted(w, next, o, r) && w.relations.coords.Keys <= w.used
    ensures RunFits(next, r) && RunStops(next, r)
  {
    assert next.ops[o].StartedRun? && next.ops[o].run == r;
    assert InWindow(next, r);
  }

  lemma StartedOtherRun(w: World, next: World, o: OpID, r: RunID, x: RunID)
    requires x in w.runs && RunFits(w, x) && RunStops(w, x) && JustStarted(w, next, o, r)
    ensures x in next.runs && RunFits(next, x) && RunStops(next, x)
  {
    SameWindow(w, next, x);
    hide InWindow;
  }

  lemma StartedOps(w: World, next: World, o: OpID, r: RunID)
    requires Inv(w) && JustStarted(w, next, o, r)
    ensures OpsSound(next)
  {
    assert OpSound(w, o);
    forall x | x in next.ops
      ensures OpSound(next, x)
    {
      assert OpSound(w, x);
      if x != o { StartedOther(w, next, o, r, x); }
    }
  }

  lemma StartedOther(w: World, next: World, o: OpID, r: RunID, x: OpID)
    requires BaseSound(w) && JustStarted(w, next, o, r) && At(w, o, w.ops[o].task) && x in w.ops && OpSound(w, x) && x != o
    ensures OpSound(next, x)
  {
    var t := w.ops[o].task;
    forall y | At(w, x, y)
      ensures y != t && At(next, x, y) && w.relations.coords[y].child != w.relations.coords[t].child
    {
      assert TaskIndexed(w.relations, y) && TaskIndexed(w.relations, t);
    }
    StartedElsewhere(w, next, o, r);
    SameFamilies(w, next);
    hide GenerationSound, Agree, JustStarted, ActiveChild, TaskIndexed;
  }

  lemma StartedElsewhere(w: World, next: World, o: OpID, r: RunID)
    requires BaseSound(w) && JustStarted(w, next, o, r)
    ensures forall c :: c != w.relations.coords[w.ops[o].task].child ==> ActiveChild(next, c) == ActiveChild(w, c)
    ensures forall x :: x in w.runs ==> x in next.runs && next.runs[x] == w.runs[x]
    ensures forall x :: x != o && x in w.ops ==> x in next.ops && next.ops[x] == w.ops[x]
    ensures next.relations == w.relations && next.families == w.families && next.deleted == w.deleted && next.holder == w.holder && next.used == w.used
    ensures next.runs.Keys == w.runs.Keys + {r} && next.runs[r].task == w.ops[o].task
  {
    hide Agree;
  }

  /** No stop has crossed a permit whose second check passes. */
  lemma PassedMeansUncovered(w: World, t: TaskID, p: Permit, g: nat)
    requires Owns(w, t, p, g) && PermitSound(w, t, p, g) && !StartError(w, t)
    ensures !Crossed(w, t, p, g)
  {}

  /** The second check leaves the run as it is, or calls `StopRun` for it. */
  predicate JustChecked(w: World, mid: World, next: World, o: OpID) {
    && o in w.ops && w.ops[o].StartedRun? && w.ops[o].run in w.runs && next == Ended(mid, o)
    && (mid == RunStopped(w, w.ops[o].run) || (mid == w && !Covered(w, w.runs[w.ops[o].run])))
  }

  lemma SecondCheckEffect(w: World, step: Step)
    requires Enabled(w, step) && step.SecondCheck? && OpSound(w, step.op)
    ensures var mid := if StartError(w, w.ops[step.op].task) then RunStopped(w, w.ops[step.op].run) else w;
            JustChecked(w, mid, Then(w, step), step.op)
  {
    var StartedRun(t, p, g, r) := w.ops[step.op];
    if !StartError(w, t) { PassedMeansUncovered(w, t, p, g); }
  }

  lemma SecondCheckKeeps(w: World, step: Step)
    requires Inv(w) && Enabled(w, step) && step.SecondCheck?
    ensures Inv(Then(w, step))
  {
    var o, next := step.op, Then(w, step);
    assert OpSound(w, o);
    hide RunsFit, RunsStop, BaseSound, OpsSound;
    SecondCheckEffect(w, step);
    hide Then, Enabled, StartError, OpSound, JustChecked, RunStopped;
    var mid := if StartError(w, w.ops[o].task) then RunStopped(w, w.ops[o].run) else w;
    CheckedRuns(w, mid, next, o);
    CheckedOps(w, mid, next, o);
    CheckedBase(w, mid, next, o);
  }

  lemma CheckedBase(w: World, mid: World, next: World, o: OpID)
    requires BaseSound(w) && JustChecked(w, mid, next, o)
    ensures BaseSound(next)
  {
    hide Agree, Covered;
  }

  lemma CheckedOps(w: World, mid: World, next: World, o: OpID)
    requires OpsSound(w) && BaseSound(w) && JustChecked(w, mid, next, o)
    ensures OpsSound(next)
  {
    forall x | x in next.ops
      ensures OpSound(next, x)
    {
      assert OpSound(w, x);
      hide Agree, Covered;
      CheckedOther(w, mid, next, o, x);
    }
  }

  lemma CheckedOther(w: World, mid: World, next: World, o: OpID, x: OpID)
    requires x in w.ops && OpSound(w, x) && x != o && JustChecked(w, mid, next, o)
    ensures OpSound(next, x)
  {
    hide Covered;
    assert forall y :: At(w, x, y) ==> At(next, x, y);
    assert forall c :: ActiveChild(next, c) == ActiveChild(w, c);
    SameFamilies(w, next);
    hide GenerationSound, JustChecked;
  }

  lemma CheckedRuns(w: World, mid: World, next: World, o: OpID)
    requires RunsFit(w) && RunsStop(w) && JustChecked(w, mid, next, o)
    ensures RunsFit(next) && RunsStop(next)
  {
    forall x | x in next.runs
      ensures RunFits(next, x) && RunStops(next, x)
    {
      assert RunFits(w, x) && RunStops(w, x);
      if x != w.ops[o].run && InWindow(w, x) {
        var y :| y in w.ops && w.ops[y].StartedRun? && w.ops[y].run == x;
        assert next.ops[y] == w.ops[y];
      }
    }
  }

  // ---------- stops ----------

  /** Counters only grow, marks stay, and every task's place is the same. */
  ghost predicate Grown(w: World, next: World) {
    && (forall s :: FamilyOf(next.families, s) == FamilyOf(w.families, s) || Generation(w, s) < Generation(next, s))
    && next.relations.coords.Keys == w.relations.coords.Keys
    && (forall t :: t in w.relations.coords ==> CoordGrown(w.relations.coords[t], next.relations.coords[t]))
    && next.relations.childSessions == w.relations.childSessions && next.relations.parentTasks == w.relations.parentTasks
    && next.current == w.current && next.ops == w.ops && next.holder == w.holder && next.used == w.used && next.roots == w.roots
    && next.deleted == w.deleted
  }

  predicate CoordGrown(a: Coord, b: Coord) {
    && b.parent == a.parent && b.child == a.child && b.admission == a.admission
    && (if b.stopGeneration == a.stopGeneration then b.stopRequested == a.stopRequested
        else a.stopGeneration < b.stopGeneration && b.stopRequested)
  }

  /** Runs only gain cancellation. */
  predicate RunsCanceled(w: World, next: World) {
    next.runs.Keys == w.runs.Keys
    && forall r :: r in w.runs ==>
         next.runs[r] == w.runs[r] || next.runs[r] == w.runs[r].(canceled := true, stopCalled := true)
  }

  /** Every active run that a stop newly crosses is cancelled by that stop. */
  predicate NewlyCrossedCanceled(w: World, next: World) {
    forall r :: r in w.runs && r in next.runs && w.runs[r].active && Covered(next, next.runs[r]) && !Covered(w, w.runs[r]) ==>
      next.runs[r].canceled && next.runs[r].stopCalled
  }

  lemma GrownAgrees(w: World, next: World)
    requires Agree(w.relations) && Grown(w, next)
    ensures Agree(next.relations)
  {
    forall t | t in next.relations.coords
      ensures TaskIndexed(next.relations, t)
    {
      assert TaskIndexed(w.relations, t);
    }
    forall p | p in next.relations.parentTasks
      ensures ListSound(next.relations, p)
    {
      assert ListSound(w.relations, p);
    }
  }

  lemma StopRuns(w: World, next: World)
    requires Inv(w) && Grown(w, next) && RunsCanceled(w, next) && NewlyCrossedCanceled(w, next)
    ensures RunsFit(next) && RunsStop(next)
  {
    forall r | r in next.runs
      ensures RunFits(next, r) && RunStops(next, r)
    {
      assert RunFits(w, r) && RunStops(w, r);
      hide BaseSound, OpsSound, RunsFit, RunsStop, RunStops, RunFits;
      StopFits(w, next, r);
      StopStops(w, next, r);
    }
  }

  lemma StopFits(w: World, next: World, r: RunID)
    requires r in w.runs && RunFits(w, r) && Grown(w, next) && RunsCanceled(w, next)
    ensures r in next.runs && RunFits(next, r)
    ensures Covered(w, w.runs[r]) ==> Covered(next, next.runs[r])
  {
    assert forall t :: t in w.relations.coords ==> CoordGrown(w.relations.coords[t], next.relations.coords[t]);
  }

  lemma StopStops(w: World, next: World, r: RunID)
    requires r in w.runs && RunStops(w, r) && Grown(w, next) && RunsCanceled(w, next) && NewlyCrossedCanceled(w, next)
    requires r in next.runs && (Covered(w, w.runs[r]) ==> Covered(next, next.runs[r]))
    ensures RunStops(next, r)
  {
    SameWindow(w, next, r);
    hide Covered, InWindow;
  }

  lemma StopOp(w: World, next: World, o: OpID)
    requires o in w.ops && OpSound(w, o) && Grown(w, next) && RunsCanceled(w, next)
    ensures OpSound(next, o)
  {
    assert forall t :: t in w.relations.coords ==> CoordGrown(w.relations.coords[t], next.relations.coords[t]);
    assert forall c :: ActiveChild(next, c) == ActiveChild(w, c);
    assert forall t :: Idle(w, t) ==> Idle(next, t);
    SoundGrows(w, next);
    hide GenerationSound, Grown, ActiveChild;
  }

  lemma SoundGrows(w: World, next: World)
    requires Grown(w, next)
    ensures forall p :: GenerationSound(w, p) ==> GenerationSound(next, p)
    ensures next.relations.coords.Keys == w.relations.coords.Keys && next.ops == w.ops && next.holder == w.holder && next.used == w.used
    ensures next.deleted == w.deleted
  {
    forall p | GenerationSound(w, p)
      ensures GenerationSound(next, p)
    {
      assert FamilyOf(next.families, p.parent) == FamilyOf(w.families, p.parent) || Generation(w, p.parent) < Generation(next, p.parent);
    }
  }

  lemma StopBase(w: World, next: World)
    requires BaseSound(w) && Grown(w, next) && RunsCanceled(w, next)
    ensures BaseSound(next)
  {
    GrownAgrees(w, next);
    hide Agree;
  }

  lemma StopOps(w: World, next: World)
    requires OpsSound(w) && Grown(w, next) && RunsCanceled(w, next)
    ensures OpsSound(next)
  {
    forall o | o in next.ops
      ensures OpSound(next, o)
    {
      assert OpSound(w, o);
      hide OpSound, RunsCanceled;
      StopOp(w, next, o);
    }
  }

  lemma StopKeeps(w: World, next: World)
    requires Inv(w) && Grown(w, next) && RunsCanceled(w, next) && NewlyCrossedCanceled(w, next)
    ensures Inv(next)
  {
    StopRuns(w, next);
    hide BaseSound, OpsSound, RunsFit, RunsStop, Grown, RunsCanceled, NewlyCrossedCanceled;
    StopBase(w, next);
    StopOps(w, next);
  }

  lemma TreeGrows(w: World, tree: set<SessionID>)
    ensures Grown(w, TreeStopped(w, tree)) && RunsCanceled(w, TreeStopped(w, tree))
  {
    var next := TreeStopped(w, tree);
    hide ActiveRuns;
    forall s
      ensures FamilyOf(next.families, s) == FamilyOf(w.families, s) || Generation(w, s) < Generation(next, s)
    {}
  }

  /** The active run of a session of the tree is cancelled. */
  lemma TreeCancels(w: World, tree: set<SessionID>, r: RunID)
    requires r in w.runs && w.runs[r].active && w.runs[r].session in tree
    requires w.runs[r].session in w.current && w.current[w.runs[r].session] == r
    ensures TreeStopped(w, tree).runs[r] == w.runs[r].(canceled := true, stopCalled := true)
  {
    var s := w.runs[r].session;
    assert ActiveChild(w, s);
    assert s in ActiveRuns(w) && ActiveRuns(w)[s] == r;
    assert r in ActiveIn(ActiveRuns(w), tree);
    hide ActiveRuns, FlaggedTasks;
  }

  lemma OutsideTree(w: World, tree: set<SessionID>, r: Run)
    requires r.permit.parent !in tree && (r.task in w.relations.coords ==> w.relations.coords[r.task].parent == r.permit.parent)
    ensures Covered(TreeStopped(w, tree), r) == Covered(w, r)
  {
    hide ActiveRuns, ActiveIn;
  }

  /** What the tree's stop crosses lies in the tree. */
  lemma CrossedInTree(w: World, root: SessionID, tree: set<SessionID>, r: RunID)
    requires Agree(w.relations) && IsTree(w.relations, root, tree) && r in w.runs && RunFits(w, r) && w.runs[r].task in w.relations.coords
    requires Covered(TreeStopped(w, tree), w.runs[r]) && !Covered(w, w.runs[r])
    ensures w.runs[r].session in tree
  {
    var run := w.runs[r];
    var c := w.relations.coords[run.task];
    if c.parent !in tree { OutsideTree(w, tree, run); }
    assert TaskIndexed(w.relations, run.task);
    assert c.child in Children(w.relations, c.parent);
    hide TreeStopped, Covered, Below;
  }

  lemma FamilyStopKeeps(w: World, root: SessionID, tree: set<SessionID>)
    requires Inv(w) && IsTree(w.relations, root, tree)
    ensures Inv(TreeStopped(w, tree))
  {
    var next := TreeStopped(w, tree);
    TreeGrows(w, tree);
    hide TreeStopped, IsTree;
    forall r | r in w.runs && w.runs[r].active && Covered(next, next.runs[r]) && !Covered(w, w.runs[r])
      ensures next.runs[r].canceled && next.runs[r].stopCalled
    {
      assert RunFits(w, r);
      CrossedInTree(w, root, tree, r);
      TreeCancels(w, tree, r);
    }
    StopKeeps(w, next);
  }

  lemma MarkedGrows(w: World, t: TaskID)
    requires t in w.relations.coords
    ensures Grown(w, TaskMarked(w, t)) && RunsCanceled(w, TaskMarked(w, t))
    ensures TaskMarked(w, t).runs == w.runs && TaskMarked(w, t).current == w.current
    ensures forall r: Run :: r.task != t ==> Covered(TaskMarked(w, t), r) == Covered(w, r)
  {}

  lemma MarkedFits(w: World, t: TaskID, r: RunID)
    requires t in w.relations.coords && r in w.runs && RunFits(w, r)
    ensures RunFits(TaskMarked(w, t), r)
  {}

  /** A run newly crossed by stopping task `t` belongs to `t` or hangs below it. */
  lemma TaskCrossed(w: World, t: TaskID, tree: set<SessionID>, r: RunID)
    requires Agree(w.relations) && t in w.relations.coords && IsTree(w.relations, w.relations.coords[t].child, tree)
    requires r in w.runs && RunFits(w, r) && w.runs[r].task in w.relations.coords
    requires !Covered(w, w.runs[r]) && Covered(TreeStopped(TaskMarked(w, t), tree), w.runs[r])
    ensures w.runs[r].session in tree
  {
    var mid := TaskMarked(w, t);
    MarkedGrows(w, t);
    if w.runs[r].task == t {
      RootIn(w.relations, w.relations.coords[t].child, tree);
    } else {
      GrownAgrees(w, mid);
      MarkedTree(w, t, tree);
      MarkedFits(w, t, r);
      hide TreeStopped, IsTree, TaskMarked, Covered, Agree;
      CrossedInTree(mid, w.relations.coords[t].child, tree, r);
    }
  }

  /** A run newly crossed by marking the task and stopping the tree below it is cancelled. */
  lemma TaskStopCancels(w: World, t: TaskID, tree: set<SessionID>, r: RunID)
    requires Inv(w) && t in w.relations.coords && IsTree(w.relations, w.relations.coords[t].child, tree)
    requires var next := TreeStopped(TaskMarked(w, t), tree);
             r in w.runs && r in next.runs && w.runs[r].active && Covered(next, next.runs[r]) && !Covered(w, w.runs[r])
    requires RunsCanceled(w, TreeStopped(TaskMarked(w, t), tree))
    ensures TreeStopped(TaskMarked(w, t), tree).runs[r].canceled && TreeStopped(TaskMarked(w, t), tree).runs[r].stopCalled
  {
    var mid := TaskMarked(w, t);
    var next := TreeStopped(mid, tree);
    assert mid.runs == w.runs && mid.current == w.current;
    assert RunFits(w, r);
    hide TreeStopped, IsTree, TaskMarked, BaseSound, OpsSound, RunsStop, RunsFit, Covered;
    CoveredSame(next, next.runs[r], w.runs[r]);
    TaskCrossed(w, t, tree, r);
    TreeCancels(mid, tree, r);
  }

  lemma TaskStopCrosses(w: World, t: TaskID, tree: set<SessionID>)
    requires Inv(w) && t in w.relations.coords && IsTree(w.relations, w.relations.coords[t].child, tree)
    requires RunsCanceled(w, TreeStopped(TaskMarked(w, t), tree))
    ensures NewlyCrossedCanceled(w, TreeStopped(TaskMarked(w, t), tree))
  {
    hide TreeStopped, IsTree, TaskMarked, Inv, Covered, RunsCanceled;
    var next := TreeStopped(TaskMarked(w, t), tree);
    forall r | r in w.runs && r in next.runs && w.runs[r].active && Covered(next, next.runs[r]) && !Covered(w, w.runs[r])
      ensures next.runs[r].canceled && next.runs[r].stopCalled
    {
      TaskStopCancels(w, t, tree, r);
    }
  }

  /** Marking the task and stopping the tree below it, in one step. */
  lemma TaskStopKeeps(w: World, t: TaskID, tree: set<SessionID>)
    requires Inv(w) && t in w.relations.coords && IsTree(w.relations, w.relations.coords[t].child, tree)
    ensures Inv(TreeStopped(TaskMarked(w, t), tree))
  {
    hide *;
    var mid := TaskMarked(w, t);
    MarkedGrows(w, t);
    TreeGrows(mid, tree);
    GrownTwice(w, mid, TreeStopped(mid, tree));
    TaskStopCrosses(w, t, tree);
    StopKeeps(w, TreeStopped(mid, tree));
  }

  lemma CoveredSame(w: World, a: Run, b: Run)
    requires a.task == b.task && a.permit == b.permit && a.stopGeneration == b.stopGeneration
    ensures Covered(w, a) == Covered(w, b)
  {}

  lemma RootIn(r: Relations, root: SessionID, tree: set<SessionID>)
    requires IsTree(r, root, tree)
    ensures root in tree
  {}

  lemma GrownTwice(a: World, b: World, c: World)
    requires Grown(a, b) && Grown(b, c) && RunsCanceled(a, b) && RunsCanceled(b, c)
    ensures Grown(a, c) && RunsCanceled(a, c)
  {
    forall s
      ensures FamilyOf(c.families, s) == FamilyOf(a.families, s) || Generation(a, s) < Generation(c, s)
    {
      assert FamilyOf(b.families, s) == FamilyOf(a.families, s) || Generation(a, s) < Generation(b, s);
    }
    forall t | t in a.relations.coords
      ensures CoordGrown(a.relations.coords[t], c.relations.coords[t])
    {
      assert CoordGrown(a.relations.coords[t], b.relations.coords[t]) && CoordGrown(b.relations.coords[t], c.relations.coords[t]);
    }
  }

  /** Marks do not change what hangs below what. */
  lemma MarkedTree(w: World, t: TaskID, tree: set<SessionID>)
    requires t in w.relations.coords && IsTree(w.relations, w.relations.coords[t].child, tree)
    ensures IsTree(TaskMarked(w, t).relations, w.relations.coords[t].child, tree)
  {
    var a, b := w.relations, TaskMarked(w, t).relations;
    forall s
      ensures Children(a, s) == Children(b, s)
    {}
    hide Children;
    forall s | s in tree
      ensures Below(b, a.coords[t].child, s)
    {
      assert Below(a, a.coords[t].child, s);
      var path :| IsPath(a, path) && path[0] == a.coords[t].child && path[|path|-1] == s;
      assert IsPath(b, path);
    }
  }

  // ---------- deleting ----------

  /** The deleted tasks are idle, unlocked and without a window. */
  predicate JustDeleted(w: World, next: World, forest: set<SessionID>) {
    && next == TreeDeleted(w, forest) && Agree(next.relations)
    && (forall s :: s in forest ==> !ActiveChild(w, s))
    && (forall t :: t in w.relations.coords && w.relations.coords[t].parent in forest ==>
          t !in w.holder && w.relations.coords[t].child in forest)
  }

  lemma DeletedEffect(w: World, step: Step)
    requires Agree(w.relations) && Enabled(w, step) && step.Deletes?
    ensures JustDeleted(w, Then(w, step), step.forest)
  {
    PruneAgrees(w.relations, TasksUnder(w.relations, step.forest));
    hide Pruned;
    forall t | t in w.relations.coords && w.relations.coords[t].parent in step.forest
      ensures t !in w.holder && w.relations.coords[t].child in step.forest
    {
      assert t in TasksUnder(w.relations, step.forest);
      assert TaskIndexed(w.relations, t);
      assert w.relations.coords[t].child in Children(w.relations, w.relations.coords[t].parent);
    }
  }

  /** What stays is as before; what goes belonged to a deleted session. */
  lemma DeletedCoords(w: World, next: World, forest: set<SessionID>)
    requires JustDeleted(w, next, forest)
    ensures forall t :: t in next.relations.coords <==> t in w.relations.coords && w.relations.coords[t].parent !in forest
    ensures forall t :: t in next.relations.coords ==> next.relations.coords[t] == w.relations.coords[t]
    ensures forall s :: s in next.relations.childSessions ==> s in w.relations.childSessions
    ensures forall s :: s !in forest ==> FamilyOf(next.families, s) == FamilyOf(w.families, s)
    ensures next == w.(relations := next.relations, families := next.families, deleted := w.deleted + forest)
  {
    hide Agree, Kept;
  }

  lemma DeletedBase(w: World, next: World, forest: set<SessionID>)
    requires BaseSound(w) && JustDeleted(w, next, forest)
    ensures BaseSound(next)
  {
    DeletedCoords(w, next, forest);
    hide Agree, TreeDeleted;
  }

  lemma DeletedOp(w: World, next: World, forest: set<SessionID>, o: OpID)
    requires o in w.ops && OpSound(w, o) && JustDeleted(w, next, forest)
    ensures o in next.ops && OpSound(next, o)
  {
    DeletedCoords(w, next, forest);
    assert forall t :: At(w, o, t) ==> At(next, o, t);
    hide Agree, TreeDeleted, JustDeleted, FamilyOf;
    assert Shrunk(w, next);
    ShrunkOp(w, next, o);
  }

  /** Some tasks and sessions are gone; the rest is as before. */
  ghost predicate Shrunk(w: World, next: World) {
    && next == w.(relations := next.relations, families := next.families, deleted := next.deleted) && w.deleted <= next.deleted
    && (forall t :: t in next.relations.coords ==> t in w.relations.coords && next.relations.coords[t] == w.relations.coords[t])
    && (forall s :: s !in next.deleted ==> FamilyOf(next.families, s) == FamilyOf(w.families, s))
  }

  lemma ShrunkOp(w: World, next: World, o: OpID)
    requires Shrunk(w, next) && o in w.ops && OpSound(w, o) && forall t :: At(w, o, t) ==> At(next, o, t)
    ensures o in next.ops && OpSound(next, o)
  {
    assert forall c :: ActiveChild(next, c) == ActiveChild(w, c);
    hide FamilyOf;
  }

  lemma DeletedOps(w: World, next: World, forest: set<SessionID>)
    requires OpsSound(w) && JustDeleted(w, next, forest)
    ensures OpsSound(next)
  {
    forall o | o in next.ops
      ensures OpSound(next, o)
    {
      assert o in w.ops && OpSound(w, o);
      hide OpSound;
      DeletedOp(w, next, forest, o);
    }
  }

  /** No window of a task that nobody holds. */
  lemma NoWindow(w: World, r: RunID)
    requires OpsSound(w) && r in w.runs && w.runs[r].task !in w.holder
    ensures !InWindow(w, r)
  {
    forall o | o in w.ops && w.ops[o].StartedRun?
      ensures w.ops[o].run != r
    {
      assert OpSound(w, o);
    }
  }

  lemma RunningIsActive(w: World, r: RunID)
    requires r in w.runs && RunFits(w, r)
    ensures w.runs[r].active ==> ActiveChild(w, w.runs[r].session)
  {}

  lemma DeletedRun(w: World, next: World, forest: set<SessionID>, r: RunID)
    requires OpsSound(w) && r in w.runs && RunFits(w, r) && RunStops(w, r) && JustDeleted(w, next, forest)
    ensures r in next.runs && RunFits(next, r) && RunStops(next, r)
  {
    var run := w.runs[r];
    DeletedCoords(w, next, forest);
    SameWindow(w, next, r);
    if run.task in w.relations.coords && w.relations.coords[run.task].parent in forest {
      NoWindow(w, r);
      RunningIsActive(w, r);
    }
    SoundElsewhere(w, next, forest);
    hide Agree, TreeDeleted, InWindow, OpsSound, FamilyOf, GenerationSound;
  }

  lemma SoundElsewhere(w: World, next: World, forest: set<SessionID>)
    requires forall s :: s !in forest ==> FamilyOf(next.families, s) == FamilyOf(w.families, s)
    ensures forall p: Permit :: p.parent !in forest ==> GenerationSound(next, p) == GenerationSound(w, p)
    ensures forall s :: s !in forest ==> Generation(next, s) == Generation(w, s)
  {}

  /** Deleting forgets counters and tasks, but none that a run still depends on. */
  lemma DeleteKeeps(w: World, step: Step)
    requires Inv(w) && Enabled(w, step) && step.Deletes?
    ensures Inv(Then(w, step))
  {
    var next := Then(w, step);
    DeletedEffect(w, step);
    hide Then, Enabled, JustDeleted, OpsSound, Agree;
    DeletedBase(w, next, step.forest);
    DeletedOps(w, next, step.forest);
    forall r | r in next.runs
      ensures RunFits(next, r) && RunStops(next, r)
    {
      DeletedCoordsRuns(w, next, step.forest);
      assert RunFits(w, r) && RunStops(w, r);
      hide RunFits, RunStops;
      DeletedRun(w, next, step.forest, r);
    }
  }

  lemma DeletedCoordsRuns(w: World, next: World, forest: set<SessionID>)
    requires JustDeleted(w, next, forest)
    ensures next.runs == w.runs && next.ops == w.ops
  {}

  // ---------- the life of a run ----------

  /** Only one run changes, and it keeps its place and its permit. */
  predicate OneRun(w: World, next: World, r: RunID) {
    && r in w.runs && r in next.runs && next.runs == w.runs[r := next.runs[r]]
    && next.relations == w.relations && next.families == w.families && next.ops == w.ops && next.holder == w.holder
    && next.used == w.used && next.roots == w.roots && next.deleted == w.deleted
    && next.runs[r].session == w.runs[r].session && next.runs[r].task == w.runs[r].task
    && next.runs[r].permit == w.runs[r].permit && next.runs[r].stopGeneration == w.runs[r].stopGeneration
    && (next.current == w.current || (next.current == w.current - {w.runs[r].session} && !next.runs[r].live && w.runs[r].live))
    && (next.runs[r].active ==> w.runs[r].active && next.runs[r].live)
    && (next.current == w.current ==> next.runs[r].live == w.runs[r].live)
  }

  lemma RunStepKeeps(w: World, next: World, r: RunID)
    requires Inv(w) && OneRun(w, next, r) && RunStops(next, r)
    ensures Inv(next)
  {
    RunStepRuns(w, next, r);
    RunStepBase(w, next, r);
    hide OneRun, RunsFit, RunsStop, BaseSound, RunStops;
    forall o | o in next.ops
      ensures OpSound(next, o)
    {
      SameOps(w, next, r);
      assert OpSound(w, o);
      hide OpSound;
      RunStepOp(w, next, r, o);
    }
  }

  lemma SameOps(w: World, next: World, r: RunID)
    requires OneRun(w, next, r)
    ensures next.ops == w.ops
  {}

  lemma RunStepBase(w: World, next: World, r: RunID)
    requires BaseSound(w) && OneRun(w, next, r)
    ensures BaseSound(next)
  {
    hide Agree;
    forall s | s in next.current
      ensures next.current[s] in next.runs && next.runs[next.current[s]].session == s
    {
      assert s in w.current && next.current[s] == w.current[s];
      assert w.runs[w.current[s]].session == s;
    }
  }

  lemma RunStepOp(w: World, next: World, r: RunID, o: OpID)
    requires o in w.ops && OpSound(w, o) && OneRun(w, next, r)
    ensures OpSound(next, o)
  {
    assert forall c :: ActiveChild(next, c) ==> ActiveChild(w, c);
  }

  lemma RunStepRuns(w: World, next: World, r: RunID)
    requires RunsFit(w) && RunsStop(w) && OneRun(w, next, r) && RunStops(next, r)
    ensures RunsFit(next) && RunsStop(next)
  {
    assert RunFits(w, r);
    forall x | x in next.runs
      ensures RunFits(next, x) && RunStops(next, x)
    {
      assert RunFits(w, x) && RunStops(w, x);
      SameWindow(w, next, x);
    }
  }

  lemma HandledEffect(w: World, step: Step)
    requires Enabled(w, step) && step.StartHandled? && RunFits(w, step.run)
    ensures var r, run, next := step.run, w.runs[step.run], Then(w, step);
            && run.active && !run.announced && run.live
            && var seen := run.(announced := true, coveredThen := Covered(w, run));
               next == w.(runs := w.runs[r := if StartError(w, run.task) then seen.(stopCalled := true, canceled := true) else seen])
  {
    assert w.runs[step.run].active ==> w.runs[step.run].task in w.relations.coords;
    hide StartError, Covered, Owns, PermitSound;
    var r, run := step.run, w.runs[step.run];
    var seen := run.(announced := true, coveredThen := Covered(w, run));
    assert w.runs[r := seen][r := seen.(stopCalled := true, canceled := true)] == w.runs[r := seen.(stopCalled := true, canceled := true)];
  }

  lemma StartHandledKeeps(w: World, step: Step)
    requires Inv(w) && Enabled(w, step) && step.StartHandled?
    ensures Inv(Then(w, step))
  {
    var r, run, next := step.run, w.runs[step.run], Then(w, step);
    assert RunFits(w, r) && RunStops(w, r);
    HandledEffect(w, step);
    if !StartError(w, run.task) { PassedMeansUncovered(w, run.task, run.permit, run.stopGeneration); }
    hide Then, Enabled, StartError, BaseSound, OpsSound, RunsFit, RunsStop;
    SameWindow(w, next, r);
    OneRunChange(w, next, r);
    RunStepKeeps(w, next, r);
  }

  /** A change of one run's flags alone. */
  lemma OneRunChange(w: World, next: World, r: RunID)
    requires r in w.runs && r in next.runs && next == w.(runs := w.runs[r := next.runs[r]])
    requires next.runs[r].session == w.runs[r].session && next.runs[r].task == w.runs[r].task && next.runs[r].live == w.runs[r].live
    requires next.runs[r].permit == w.runs[r].permit && next.runs[r].stopGeneration == w.runs[r].stopGeneration
    requires next.runs[r].active ==> w.runs[r].active && w.runs[r].live
    ensures OneRun(w, next, r)
    ensures Covered(next, next.runs[r]) == Covered(w, w.runs[r])
  {}

  lemma FlagsEffect(w: World, step: Step)
    requires Enabled(w, step) && (step.LoopEntered? || step.RunEnds? || step.RunCanceled?)
    requires RunFits(w, step.run) && RunStops(w, step.run)
    ensures var r, next := step.run, Then(w, step);
            OneRun(w, next, r) && RunStops(next, r)
  {
    var r, next := step.run, Then(w, step);
    var run := w.runs[r];
    assert next == w.(runs := w.runs[r := if step.LoopEntered? then run.(looping := true)
                                          else if step.RunEnds? then Over(w, run) else run.(canceled := true)]);
    assert step.LoopEntered? ==> run.announced && !run.canceled;
    hide Then, Enabled;
    SameWindow(w, next, r);
    OneRunChange(w, next, r);
    hide OneRun, Covered, InWindow;
  }

  lemma FlagsKeep(w: World, step: Step)
    requires Inv(w) && Enabled(w, step) && (step.LoopEntered? || step.RunEnds? || step.RunCanceled?)
    ensures Inv(Then(w, step))
  {
    assert RunFits(w, step.run) && RunStops(w, step.run);
    FlagsEffect(w, step);
    hide *;
    RunStepKeeps(w, Then(w, step), step.run);
  }

  lemma ReleaseEffect(w: World, step: Step)
    requires Enabled(w, step) && step.RunReleased? && RunFits(w, step.run)
    ensures var r, run, next := step.run, w.runs[step.run], Then(w, step);
            && next == w.(runs := w.runs[r := (if run.active then Over(w, run) else run).(live := false)], current := w.current - {run.session})
            && OneRun(w, next, r) && Covered(next, next.runs[r]) == Covered(w, run)
  {
    hide Owns, PermitSound;
  }

  lemma ReleaseKeeps(w: World, step: Step)
    requires Inv(w) && Enabled(w, step) && step.RunReleased?
    ensures Inv(Then(w, step))
  {
    var r, next := step.run, Then(w, step);
    assert RunFits(w, r) && RunStops(w, r);
    ReleaseEffect(w, step);
    hide Then, Enabled, BaseSound, OpsSound, RunsFit, RunsStop, OneRun;
    SameWindow(w, next, r);
    RunStepKeeps(w, next, r);
  }

  // ---------- all interleavings ----------

  lemma StepKeeps(w: World, step: Step)
    requires Inv(w) && Enabled(w, step)
    ensures Inv(Then(w, step))
  {
    hide Inv, Then, Enabled;
    match step
    case SpawnAdmits(_, _, _) => EntrySteps(w, step);
    case SendBegins(_, _, _, _) => EntrySteps(w, step);
    case SpawnPublishes(_, _, _) => PublishKeeps(w, step);
    case SpawnForgets(_) => ForgetKeeps(w, step);
    case SendChecks(_) => CheckSteps(w, step);
    case FirstCheck(_) => CheckSteps(w, step);
    case SendRenews(_) => RenewKeeps(w, step);
    case Starts(_, _) => StartKeeps(w, step);
    case SecondCheck(_) => SecondCheckKeeps(w, step);
    case StopsTask(t, tree) => StopStep(w, step);
    case StopsFamily(root, tree) => StopStep(w, step);
    case Deletes(_, _) => DeleteKeeps(w, step);
    case RootChanges(_, _) => OutsideSteps(w, step);
    case Closes => OutsideSteps(w, step);
    case SpawnSaves(_) => MovedSteps(w, step);
    case SendLocks(_) => MovedSteps(w, step);
    case SendFindsIdle(_) => MovedSteps(w, step);
    case Abandons(_) => MovedSteps(w, step);
    case StartHandled(_) => StartHandledKeeps(w, step);
    case RunReleased(_) => ReleaseKeeps(w, step);
    case _ => FlagsKeep(w, step);
  }

  lemma StopStep(w: World, step: Step)
    requires Inv(w) && Enabled(w, step) && (step.StopsTask? || step.StopsFamily?)
    ensures Inv(Then(w, step))
  {
    hide Inv, TreeStopped, IsTree;
    if step.StopsTask? {
      TaskStopKeeps(w, step.task, step.tree);
    } else {
      FamilyStopKeeps(w, step.root, step.tree);
    }
  }

  ghost predicate Follows(w: World, steps: seq<Step>)
    decreases |steps|
  {
    steps == [] || (Enabled(w, steps[0]) && Follows(Then(w, steps[0]), steps[1..]))
  }

  ghost function RunAll(w: World, steps: seq<Step>): World
    requires Follows(w, steps)
    decreases |steps|
  {
    if steps == [] then w else RunAll(Then(w, steps[0]), steps[1..])
  }

  lemma {:induction false} AllKeep(w: World, steps: seq<Step>)
    requires Inv(w) && Follows(w, steps)
    ensures Inv(RunAll(w, steps))
    decreases |steps|
  {
    hide Inv, Then, Enabled;
    if steps != [] {
      StepKeeps(w, steps[0]);
      AllKeep(Then(w, steps[0]), steps[1..]);
    }
  }

  const nothing: World := World(Relations(map[], map[], map[]), map[], false, {}, {}, map[], map[], map[], map[], map[])

  /** For every interleaving of spawns, sends, stops and deletions: once the operation that started a child run
      has checked again, a stop that crossed its permit has called `StopRun` for the run, unless the
      run was over before the stop; a run whose start notification has been handled is cancelled as
      soon as a stop crosses its permit; and one that was crossed before that moment never enters
      its loop. */
  lemma StopsReachEveryRun(steps: seq<Step>, id: RunID)
    requires Follows(nothing, steps) && id in RunAll(nothing, steps).runs
    ensures var w := RunAll(nothing, steps);
            var r := w.runs[id];
            && (Covered(w, r) && !InWindow(w, id) ==> r.stopCalled || r.endedUncovered)
            && (Covered(w, r) && r.announced && r.active ==> r.canceled)
            && (r.coveredThen ==> r.canceled && !r.looping)
  {
    assert Inv(nothing);
    AllKeep(nothing, steps);
    assert RunStops(RunAll(nothing, steps), id);
  }

  /** Deleting is final: whatever was under way, no task is ever found under a deleted session again, and
      no child run is active whose parent has been deleted. */
  lemma DeletionIsFinal(steps: seq<Step>)
    requires Follows(nothing, steps)
    ensures var w := RunAll(nothing, steps);
            && (forall s :: s in w.deleted ==> s !in w.relations.parentTasks)
            && (forall t :: t in w.relations.coords ==> w.relations.coords[t].parent !in w.deleted)
            && (forall r :: r in w.runs && w.runs[r].active ==>
                  w.runs[r].task in w.relations.coords && w.runs[r].permit.parent !in w.deleted)
  {
    assert Inv(nothing);
    AllKeep(nothing, steps);
    var w := RunAll(nothing, steps);
    forall s | s in w.relations.parentTasks
      ensures s !in w.deleted
    {
      assert ListSound(w.relations, s) && w.relations.parentTasks[s][0] in w.relations.parentTasks[s];
    }
    forall r | r in w.runs && w.runs[r].active
      ensures w.runs[r].task in w.relations.coords && w.runs[r].permit.parent !in w.deleted
    {
      assert RunFits(w, r);
    }
  }
}
