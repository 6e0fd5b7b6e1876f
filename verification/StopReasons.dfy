/** That stopping is exact (internal/subagents/family.go, stop.go, turn.go): no run is stopped without a reason, and what
    nobody stops gets through. */
module StopReasons {
  import opened Basics
  import opened Delegation
  import opened StopProtocol

  // ---------- no run is stopped without a reason ----------

  /** A stop has crossed the run's permit, the service is closed, its parent is deleted, or its own session was the
      root of a family stop. */
  predicate Reasoned(w: World, roots: set<SessionID>, r: Run) {
    r.stopCalled ==> Covered(w, r) || w.closed || r.permit.parent in w.deleted || r.session in roots
  }

  predicate AllReasoned(w: World, roots: set<SessionID>) {
    forall id :: id in w.runs ==> Reasoned(w, roots, w.runs[id])
  }

  function RootsAfter(roots: set<SessionID>, step: Step): set<SessionID> {
    if step.StopsFamily? then roots + {step.root} else roots
  }

  /** Nothing about the run changes, and what covered it covers it still, unless its parent is deleted. */
  predicate Carried(w: World, next: World, id: RunID) {
    && id in w.runs && id in next.runs
    && next.runs[id].session == w.runs[id].session && next.runs[id].permit == w.runs[id].permit
    && (Covered(w, w.runs[id]) ==> Covered(next, next.runs[id]) || w.runs[id].permit.parent in next.deleted)
    && (w.closed ==> next.closed) && w.deleted <= next.deleted
  }

  lemma CarriedReasoned(w: World, next: World, roots: set<SessionID>, more: set<SessionID>, id: RunID)
    requires Carried(w, next, id) && Reasoned(w, roots, w.runs[id]) && roots <= more && next.runs[id].stopCalled == w.runs[id].stopCalled
    ensures Reasoned(next, more, next.runs[id])
  {
    hide Covered;
  }

  lemma AllCarried(w: World, next: World, roots: set<SessionID>)
    requires AllReasoned(w, roots) && next.runs == w.runs && forall id :: id in w.runs ==> Carried(w, next, id)
    ensures AllReasoned(next, roots)
  {
    hide Covered, Carried;
    forall id | id in next.runs
      ensures Reasoned(next, roots, next.runs[id])
    {
      assert Carried(w, next, id);
      hide Reasoned;
      CarriedReasoned(w, next, roots, roots, id);
    }
  }

  // ---------- work ----------

  /** Steps of an operation that leave the state alone. */
  predicate OfProgress(s: Step) {
    s.SpawnAdmits? || s.SpawnSaves? || s.SendBegins? || s.SendLocks? || s.SendChecks? || s.SendFindsIdle? || s.FirstCheck? || s.Abandons?
  }

  lemma ProgressEffect(w: World, s: Step)
    requires Enabled(w, s) && OfProgress(s)
    ensures SameState(w, Then(w, s)) && Then(w, s).closed == w.closed
  {
    if s.SendChecks? || s.FirstCheck? {
      CheckEffect(w, s);
      hide Then, Enabled;
    } else if s.SpawnAdmits? || s.SendBegins? {
      hide AdmissionError, StartError, ActiveRuns, Admission;
    } else {
      MovedEffect(w, s);
    }
  }

  lemma MovedEffect(w: World, s: Step)
    requires Enabled(w, s) && (s.SpawnSaves? || s.SendLocks? || s.SendFindsIdle? || s.Abandons?)
    ensures SameState(w, Then(w, s)) && Then(w, s).closed == w.closed
  {
    hide AdmissionError, StartError, ActiveRuns, Admission, ActiveChild;
  }

  lemma SameCover(w: World, next: World)
    requires next.relations == w.relations && next.families == w.families
    ensures forall r: Run :: Covered(next, r) == Covered(w, r)
  {}

  lemma SameStateReasoned(w: World, next: World, roots: set<SessionID>)
    requires AllReasoned(w, roots) && SameState(w, next) && (w.closed ==> next.closed)
    ensures AllReasoned(next, roots)
  {
    AllCarried(w, next, roots);
  }

  lemma PublishReasoned(w: World, s: Step, roots: set<SessionID>)
    requires Inv(w) && AllReasoned(w, roots) && Enabled(w, s) && s.SpawnPublishes?
    ensures AllReasoned(Then(w, s), roots)
  {
    var next := Then(w, s);
    if AdmissionError(w, w.ops[s.op].permit) {
      assert SameState(w, next) && next.closed == w.closed;
      hide Then, Enabled, AllReasoned, Inv, AdmissionError;
      SameStateReasoned(w, next, roots);
    } else {
      assert JustPublished(w, next, s.op, s.task, s.child);
      hide Then, Enabled, AllReasoned, AdmissionError, Published;
      PublishedReasoned(w, next, s.op, s.task, s.child, roots);
    }
  }

  lemma PublishedReasoned(w: World, next: World, o: OpID, t: TaskID, c: SessionID, roots: set<SessionID>)
    requires RunsFit(w) && AllReasoned(w, roots) && JustPublished(w, next, o, t, c)
    ensures AllReasoned(next, roots)
  {
    forall id | id in w.runs
      ensures Carried(w, next, id)
    {
      assert RunFits(w, id);
    }
    hide RunsFit, Carried, AllReasoned;
    AllCarried(w, next, roots);
  }

  lemma ForgetReasoned(w: World, s: Step, roots: set<SessionID>)
    requires Inv(w) && AllReasoned(w, roots) && Enabled(w, s) && s.SpawnForgets?
    ensures AllReasoned(Then(w, s), roots)
  {
    var next := Then(w, s);
    assert OpSound(w, s.op);
    forall id | id in w.runs
      ensures Carried(w, next, id)
    {
      assert w.runs[id].task != w.ops[s.op].task;
    }
    hide BaseSound, OpsSound, RunsFit, RunsStop, Carried;
    AllCarried(w, next, roots);
  }

  lemma RenewReasoned(w: World, s: Step, roots: set<SessionID>)
    requires AllReasoned(w, roots) && Enabled(w, s) && s.SendRenews?
    ensures AllReasoned(Then(w, s), roots)
  {
    var next := Then(w, s);
    forall id | id in w.runs
      ensures Carried(w, next, id)
    {}
    hide AdmissionError, Carried;
    AllCarried(w, next, roots);
  }

  lemma StartReasoned(w: World, s: Step, roots: set<SessionID>)
    requires AllReasoned(w, roots) && Enabled(w, s) && s.Starts?
    ensures AllReasoned(Then(w, s), roots)
  {
    var next := Then(w, s);
    assert JustStarted(w, next, s.op, s.run);
    hide Then, Enabled;
    forall id | id in next.runs
      ensures Reasoned(next, roots, next.runs[id])
    {
      if id != s.run { assert Reasoned(w, roots, w.runs[id]); }
    }
  }

  lemma CheckReasoned(w: World, s: Step, roots: set<SessionID>)
    requires Inv(w) && AllReasoned(w, roots) && Enabled(w, s) && s.SecondCheck?
    ensures AllReasoned(Then(w, s), roots)
  {
    var o, next := s.op, Then(w, s);
    assert OpSound(w, o);
    hide Inv, AllReasoned, StartError, OpSound;
    SecondCheckEffect(w, s);
    CheckReason(w, o);
    var mid := if StartError(w, w.ops[o].task) then RunStopped(w, w.ops[o].run) else w;
    hide Then, Enabled, Covered, JustChecked, RunStopped;
    CheckedReasoned(w, mid, next, o, roots);
  }

  lemma CheckReason(w: World, o: OpID)
    requires o in w.ops && w.ops[o].StartedRun? && OpSound(w, o)
    ensures w.ops[o].task in w.relations.coords && w.ops[o].run in w.runs
    ensures StartError(w, w.ops[o].task) ==>
              Covered(w, w.runs[w.ops[o].run]) || w.closed || w.runs[w.ops[o].run].permit.parent in w.deleted
  {
    var StartedRun(t, p, g, r) := w.ops[o];
    hide StartError;
    if StartError(w, t) { ErrorHasReason(w, t, p, g); }
  }

  lemma CheckedReasoned(w: World, mid: World, next: World, o: OpID, roots: set<SessionID>)
    requires AllReasoned(w, roots) && JustChecked(w, mid, next, o)
    requires mid != w ==> Covered(w, w.runs[w.ops[o].run]) || w.closed || w.runs[w.ops[o].run].permit.parent in w.deleted
    ensures AllReasoned(next, roots)
  {
    SameCover(w, next);
    hide Covered;
    forall id | id in next.runs
      ensures Reasoned(next, roots, next.runs[id])
    {
      assert Reasoned(w, roots, w.runs[id]);
    }
  }

  /** A check fails only for a reason. */
  lemma ErrorHasReason(w: World, t: TaskID, p: Permit, g: nat)
    requires Owns(w, t, p, g) && PermitSound(w, t, p, g) && StartError(w, t)
    ensures Crossed(w, t, p, g) || w.closed || p.parent in w.deleted
  {}

  lemma DeletionCarries(w: World, s: Step, id: RunID)
    requires Inv(w) && Enabled(w, s) && s.Deletes? && id in w.runs
    ensures Carried(w, Then(w, s), id) && Then(w, s).runs[id] == w.runs[id]
  {
    assert RunFits(w, id);
    DeletedEffect(w, s);
    DeletedCoords(w, Then(w, s), s.forest);
    hide Then, Enabled, TreeDeleted, JustDeleted, Agree;
    SoundElsewhere(w, TreeDeleted(w, s.forest), s.forest);
  }

  lemma DeleteReasoned(w: World, s: Step, roots: set<SessionID>)
    requires Inv(w) && AllReasoned(w, roots) && Enabled(w, s) && s.Deletes?
    ensures AllReasoned(Then(w, s), roots)
  {
    var next := Then(w, s);
    hide Then, Inv, Carried, AllReasoned;
    forall id | id in w.runs
      ensures Carried(w, next, id)
    {
      DeletionCarries(w, s, id);
    }
    assert next.runs == w.runs by { DeletedSameRuns(w, s); }
    AllCarried(w, next, roots);
  }

  lemma DeletedSameRuns(w: World, s: Step)
    requires Enabled(w, s) && s.Deletes?
    ensures Then(w, s).runs == w.runs
  {}

  // ---------- runs ----------

  lemma HandledReasoned(w: World, s: Step, roots: set<SessionID>)
    requires Inv(w) && AllReasoned(w, roots) && Enabled(w, s) && s.StartHandled?
    ensures AllReasoned(Then(w, s), roots)
  {
    var r, run, next := s.run, w.runs[s.run], Then(w, s);
    assert RunFits(w, r);
    HandledEffect(w, s);
    if StartError(w, run.task) { ErrorHasReason(w, run.task, run.permit, run.stopGeneration); }
    SameCover(w, next);
    hide Then, Enabled, StartError, BaseSound, OpsSound, RunsFit, RunsStop, Covered;
    forall id | id in next.runs
      ensures Reasoned(next, roots, next.runs[id])
    {
      assert Reasoned(w, roots, w.runs[id]);
    }
  }

  /** The remaining steps of a run: its loop, its end, its release and a cancellation from outside. */
  predicate OfLife(s: Step) {
    s.LoopEntered? || s.RunEnds? || s.RunReleased? || s.RunCanceled?
  }

  lemma LifeEffect(w: World, s: Step)
    requires Inv(w) && Enabled(w, s) && OfLife(s)
    ensures var r, next := s.run, Then(w, s);
            OneRun(w, next, r) && next.runs[r].stopCalled == w.runs[r].stopCalled && next.closed == w.closed
  {
    assert RunFits(w, s.run) && RunStops(w, s.run);
    if s.RunReleased? { ReleaseEffect(w, s); } else { FlagsEffect(w, s); }
    hide BaseSound, OpsSound, RunsFit, RunsStop, RunStops, RunFits;
  }

  lemma LifeReasoned(w: World, s: Step, roots: set<SessionID>)
    requires Inv(w) && AllReasoned(w, roots) && Enabled(w, s) && OfLife(s)
    ensures AllReasoned(Then(w, s), roots)
  {
    var next := Then(w, s);
    LifeEffect(w, s);
    SameCover(w, next);
    hide Then, Enabled, Inv, Covered;
    forall id | id in next.runs
      ensures Reasoned(next, roots, next.runs[id])
    {
      assert Reasoned(w, roots, w.runs[id]);
    }
  }

  // ---------- stops ----------

  lemma {:induction false} PathInTree(r: Relations, root: SessionID, tree: set<SessionID>, path: seq<SessionID>, i: nat)
    requires IsTree(r, root, tree) && IsPath(r, path) && path[0] == root && i < |path|
    ensures path[i] in tree
  {
    if i > 0 {
      PathInTree(r, root, tree, path, i - 1);
      assert path[i-1+1] in Children(r, path[i-1]);
    }
  }

  /** Every member of a stopped tree but its root is the child of a task of another member. */
  lemma TreeMember(r: Relations, root: SessionID, tree: set<SessionID>, s: SessionID) returns (t: TaskID)
    requires Agree(r) && IsTree(r, root, tree) && s in tree && s != root
    ensures t in r.coords && r.coords[t].child == s && r.coords[t].parent in tree
  {
    assert Below(r, root, s);
    var path :| IsPath(r, path) && path[0] == root && path[|path|-1] == s;
    var k := |path| - 2;
    PathInTree(r, root, tree, path, k);
    assert path[k+1] in Children(r, path[k]);
    t :| t in TasksOf(r.parentTasks, path[k]) && t in r.coords && r.coords[t].child == s;
    assert ListSound(r, path[k]);
  }

  lemma OnlyTask(r: Relations, t: TaskID, u: TaskID)
    requires Agree(r) && t in r.coords && u in r.coords && r.coords[t].child == r.coords[u].child
    ensures t == u
  {
    assert TaskIndexed(r, t) && TaskIndexed(r, u);
  }

  /** The run a tree's stop calls `StopRun` for is the active one of a session of the tree. */
  lemma StoppedIsActive(w: World, tree: set<SessionID>, id: RunID)
    requires BaseSound(w) && RunsFit(w) && id in w.runs && id in ActiveIn(ActiveRuns(w), tree)
    ensures w.runs[id].session in tree && w.runs[id].active && RunFits(w, id)
  {
    hide Agree, RunFits;
    var s :| s in tree && s in ActiveRuns(w) && ActiveRuns(w)[s] == id;
    assert ActiveChild(w, s) || s in w.roots;
  }

  lemma BelowIsCovered(w: World, root: SessionID, tree: set<SessionID>, id: RunID)
    requires Agree(w.relations) && (forall t :: t in w.relations.coords ==> w.relations.coords[t].parent !in w.deleted)
    requires IsTree(w.relations, root, tree) && id in w.runs && RunFits(w, id) && w.runs[id].active
    requires w.runs[id].session in tree && w.runs[id].session != root
    ensures Covered(TreeStopped(w, tree), w.runs[id])
  {
    var run := w.runs[id];
    var t := TreeMember(w.relations, root, tree, run.session);
    OnlyTask(w.relations, t, run.task);
    assert run.permit.parent in tree && GenerationSound(w, run.permit);
    Bumped(w, tree, run.permit.parent);
    hide TreeStopped, IsTree, Agree;
  }

  lemma Bumped(w: World, tree: set<SessionID>, s: SessionID)
    requires s in tree
    ensures Generation(TreeStopped(w, tree), s) == Generation(w, s) + 1
  {
    hide ActiveRuns, FlaggedTasks, StopCalls;
  }

  lemma TreeEffect(w: World, tree: set<SessionID>, id: RunID)
    requires id in w.runs
    ensures var next := TreeStopped(w, tree);
            && next.closed == w.closed && next.deleted == w.deleted && id in next.runs
            && next.runs[id] == if id in ActiveIn(ActiveRuns(w), tree) then w.runs[id].(canceled := true, stopCalled := true) else w.runs[id]
  {
    hide ActiveRuns, ActiveIn, FlaggedTasks;
  }

  lemma FamilyStopReasoned(w: World, root: SessionID, tree: set<SessionID>, roots: set<SessionID>)
    requires Inv(w) && AllReasoned(w, roots) && IsTree(w.relations, root, tree)
    ensures AllReasoned(TreeStopped(w, tree), roots + {root})
  {
    var next := TreeStopped(w, tree);
    TreeGrows(w, tree);
    assert next.runs.Keys == w.runs.Keys;
    hide TreeStopped, IsTree, Agree, Grown, RunsCanceled, ActiveRuns, ActiveIn;
    forall id | id in next.runs
      ensures Reasoned(next, roots + {root}, next.runs[id])
    {
      assert RunFits(w, id) && Reasoned(w, roots, w.runs[id]);
      TreeEffect(w, tree, id);
      StopFits(w, next, id);
      if id in ActiveIn(ActiveRuns(w), tree) {
        StoppedIsActive(w, tree, id);
        if w.runs[id].session != root { BelowIsCovered(w, root, tree, id); }
      }
      CoveredSame(next, next.runs[id], w.runs[id]);
      hide Covered, RunFits;
    }
  }

  lemma MarkedIsCovered(w: World, t: TaskID, tree: set<SessionID>, id: RunID)
    requires BaseSound(w) && t in w.relations.coords && id in w.runs && RunFits(w, id) && w.runs[id].active
    requires w.runs[id].session == w.relations.coords[t].child
    ensures Covered(TaskMarked(w, t), w.runs[id])
  {
    OnlyTask(w.relations, t, w.runs[id].task);
    hide Agree;
  }

  lemma MarkedEffect(w: World, t: TaskID)
    requires t in w.relations.coords
    ensures var mid := TaskMarked(w, t);
            && mid.runs == w.runs && mid.closed == w.closed && mid.deleted == w.deleted && ActiveRuns(mid) == ActiveRuns(w)
            && t in mid.relations.coords && mid.relations.coords[t].child == w.relations.coords[t].child
  {}

  lemma MarkedSound(w: World, t: TaskID)
    requires BaseSound(w) && t in w.relations.coords
    ensures BaseSound(TaskMarked(w, t))
  {
    MarkedGrows(w, t);
    hide TaskMarked;
    StopBase(w, TaskMarked(w, t));
  }

  lemma TaskStopReasoned(w: World, t: TaskID, tree: set<SessionID>, roots: set<SessionID>)
    requires Inv(w) && AllReasoned(w, roots) && t in w.relations.coords && IsTree(w.relations, w.relations.coords[t].child, tree)
    ensures AllReasoned(TreeStopped(TaskMarked(w, t), tree), roots)
  {
    var mid := TaskMarked(w, t);
    var next := TreeStopped(mid, tree);
    MarkedGrows(w, t);
    TreeGrows(mid, tree);
    MarkedEffect(w, t);
    MarkedSound(w, t);
    MarkedTree(w, t, tree);
    assert next.runs.Keys == w.runs.Keys;
    hide TaskMarked, TreeStopped, IsTree, Agree, Grown, RunsCanceled, ActiveRuns, ActiveIn;
    forall id | id in next.runs
      ensures Reasoned(next, roots, next.runs[id])
    {
      TaskStopReason(w, mid, t, tree, roots, id);
    }
  }

  lemma TaskStopReason(w: World, mid: World, t: TaskID, tree: set<SessionID>, roots: set<SessionID>, id: RunID)
    requires Inv(w) && AllReasoned(w, roots) && t in w.relations.coords && mid == TaskMarked(w, t) && BaseSound(mid)
    requires IsTree(mid.relations, w.relations.coords[t].child, tree) && id in w.runs
    requires Grown(w, mid) && RunsCanceled(w, mid) && Grown(mid, TreeStopped(mid, tree)) && RunsCanceled(mid, TreeStopped(mid, tree))
    ensures var next := TreeStopped(mid, tree);
            id in next.runs && Reasoned(next, roots, next.runs[id])
  {
    var next := TreeStopped(mid, tree);
    assert RunFits(w, id) && Reasoned(w, roots, w.runs[id]);
    MarkedEffect(w, t);
    MarkedFits(w, t, id);
    StopFits(w, mid, id);
    StopFits(mid, next, id);
    TreeEffect(mid, tree, id);
    if id in ActiveIn(ActiveRuns(mid), tree) {
      AllFit(w, t);
      StoppedIsActive(mid, tree, id);
      if w.runs[id].session == w.relations.coords[t].child {
        MarkedIsCovered(w, t, tree, id);
      } else {
        BelowIsCovered(mid, w.relations.coords[t].child, tree, id);
      }
    }
    CoveredSame(next, next.runs[id], w.runs[id]);
    hide Covered, RunFits, TaskMarked, TreeStopped, Inv, IsTree, Grown, RunsCanceled, ActiveIn, ActiveRuns, BaseSound, AllReasoned;
  }

  lemma AllFit(w: World, t: TaskID)
    requires RunsFit(w) && t in w.relations.coords
    ensures RunsFit(TaskMarked(w, t))
  {
    forall r | r in w.runs
      ensures RunFits(TaskMarked(w, t), r)
    {
      MarkedFits(w, t, r);
    }
  }

  // ---------- all interleavings ----------

  lemma OutsideReasoned(w: World, s: Step, roots: set<SessionID>)
    requires AllReasoned(w, roots) && Enabled(w, s) && (s.RootChanges? || s.Closes?)
    ensures AllReasoned(Then(w, s), roots)
  {
    OutsideEffect(w, s);
    assert w.closed ==> Then(w, s).closed;
    hide Then, Enabled;
    SameStateReasoned(w, Then(w, s), roots);
  }

  lemma StepReasoned(w: World, s: Step, roots: set<SessionID>)
    requires Inv(w) && AllReasoned(w, roots) && Enabled(w, s)
    ensures AllReasoned(Then(w, s), RootsAfter(roots, s))
  {
    hide Inv, AllReasoned, Then, Enabled;
    match s
    case SpawnPublishes(_, _, _) => PublishReasoned(w, s, roots);
    case SpawnForgets(_) => ForgetReasoned(w, s, roots);
    case SendRenews(_) => RenewReasoned(w, s, roots);
    case Starts(_, _) => StartReasoned(w, s, roots);
    case SecondCheck(_) => CheckReasoned(w, s, roots);
    case StopsTask(_, _) => StopReasoned(w, s, roots);
    case StopsFamily(_, _) => StopReasoned(w, s, roots);
    case Deletes(_, _) => DeleteReasoned(w, s, roots);
    case StartHandled(_) => HandledReasoned(w, s, roots);
    case LoopEntered(_) => LifeReasoned(w, s, roots);
    case RunEnds(_) => LifeReasoned(w, s, roots);
    case RunReleased(_) => LifeReasoned(w, s, roots);
    case RunCanceled(_) => LifeReasoned(w, s, roots);
    case RootChanges(_, _) => OutsideReasoned(w, s, roots);
    case Closes => OutsideReasoned(w, s, roots);
    case _ =>
      ProgressEffect(w, s);
      SameStateReasoned(w, Then(w, s), roots);
  }

  lemma StopReasoned(w: World, s: Step, roots: set<SessionID>)
    requires Inv(w) && AllReasoned(w, roots) && Enabled(w, s) && (s.StopsTask? || s.StopsFamily?)
    ensures AllReasoned(Then(w, s), RootsAfter(roots, s))
  {
    hide Inv, AllReasoned, TreeStopped, IsTree, TaskMarked;
    if s.StopsTask? {
      TaskStopReasoned(w, s.task, s.tree, roots);
    } else {
      FamilyStopReasoned(w, s.root, s.tree, roots);
    }
  }

  /** The sessions whose families were stopped. */
  function FamilyRoots(steps: seq<Step>): set<SessionID> {
    set s | s in steps && s.StopsFamily? :: s.root
  }

  lemma {:induction false} AllStepsReasoned(w: World, steps: seq<Step>, roots: set<SessionID>)
    requires Inv(w) && AllReasoned(w, roots) && Follows(w, steps)
    ensures AllReasoned(RunAll(w, steps), roots + FamilyRoots(steps))
    decreases |steps|
  {
    hide Inv, AllReasoned, Then, Enabled;
    if steps == [] {
      assert roots + FamilyRoots([]) == roots;
    } else {
      StepKeeps(w, steps[0]);
      StepReasoned(w, steps[0], roots);
      AllStepsReasoned(Then(w, steps[0]), steps[1..], RootsAfter(roots, steps[0]));
      assert steps == [steps[0]] + steps[1..];
      assert RootsAfter(roots, steps[0]) + FamilyRoots(steps[1..]) == roots + FamilyRoots(steps);
    }
  }

  /** For every interleaving of spawns, sends, stops and deletions: `StopRun` is called for a child run only if a stop has
      crossed its permit, or the service has closed, or its parent has been deleted, or somebody stopped the family of its
      own session. */
  lemma NoNeedlessStop(steps: seq<Step>, id: RunID)
    requires Follows(nothing, steps) && id in RunAll(nothing, steps).runs
    ensures var w := RunAll(nothing, steps);
            var r := w.runs[id];
            r.stopCalled ==> Covered(w, r) || w.closed || r.permit.parent in w.deleted
                             || exists s :: s in steps && s.StopsFamily? && s.root == r.session
  {
    assert Inv(nothing) && AllReasoned(nothing, {});
    AllStepsReasoned(nothing, steps, {});
    assert {} + FamilyRoots(steps) == FamilyRoots(steps);
    assert Reasoned(RunAll(nothing, steps), FamilyRoots(steps), RunAll(nothing, steps).runs[id]);
    hide Covered, Inv, AllReasoned;
  }

  // ---------- what nobody stops gets through ----------

  ghost predicate Leads(w: World, steps: seq<Step>, next: World) {
    Follows(w, steps) && RunAll(w, steps) == next
  }

  lemma {:induction false} LeadsNext(w: World, steps: seq<Step>, mid: World, s: Step)
    requires Leads(w, steps, mid) && Enabled(mid, s)
    ensures Leads(w, steps + [s], Then(mid, s))
    decreases |steps|
  {
    hide Enabled, Then;
    var more := steps + [s];
    if steps == [] {
      assert mid == w && more == [s] && more[1..] == [];
      assert Follows(Then(w, s), []) && RunAll(Then(w, s), []) == Then(w, s);
      assert Follows(w, more);
      assert RunAll(w, more) == RunAll(Then(w, more[0]), more[1..]);
    } else {
      assert more[0] == steps[0] && more[1..] == steps[1..] + [s];
      LeadsNext(Then(w, steps[0]), steps[1..], mid, s);
    }
  }

  lemma SameErrors(w: World, next: World, t: TaskID)
    requires next.relations == w.relations && next.families == w.families && next.closed == w.closed && next.deleted == w.deleted
    requires t in w.relations.coords
    ensures StartError(next, t) == StartError(w, t)
  {}

  predicate ReadyToRun(w: World, o: OpID, r: RunID) {
    && o in w.ops && w.ops[o].Prepared? && w.ops[o].task in w.relations.coords && !StartError(w, w.ops[o].task)
    && w.relations.coords[w.ops[o].task].child !in w.current
    && r !in w.runs && (forall s :: s in w.roots ==> w.roots[s] != r)
  }

  function StartedWorld(w: World, o: OpID, r: RunID): World
    requires ReadyToRun(w, o, r)
  {
    var Prepared(t, p, g) := w.ops[o];
    var c := w.relations.coords[t].child;
    w.(ops := w.ops[o := StartedRun(t, p, g, r)],
       runs := w.runs[r := Run(c, t, p, g, true, true, false, false, false, false, false, false)], current := w.current[c := r])
  }

  lemma CheckPasses(w: World, o: OpID, r: RunID)
    requires ReadyToRun(w, o, r)
    ensures Enabled(w, FirstCheck(o))
    ensures var passed := Then(w, FirstCheck(o));
            Enabled(passed, Starts(o, r)) && Then(passed, Starts(o, r)) == StartedWorld(w, o, r)
  {
    hide StartError;
    var Prepared(t, p, g) := w.ops[o];
    assert w.ops[o := Passed(t, p, g)][o := StartedRun(t, p, g, r)] == w.ops[o := StartedRun(t, p, g, r)];
  }

  lemma SecondCheckPasses(w: World, o: OpID, r: RunID)
    requires ReadyToRun(w, o, r)
    ensures var started := StartedWorld(w, o, r);
            && Enabled(started, SecondCheck(o))
            && Then(started, SecondCheck(o)) == Ended(started, o)
  {
    SameErrors(w, StartedWorld(w, o, r), w.ops[o].task);
    hide StartError;
  }

  /** A turn whose first check passes, and which nobody stops meanwhile, reaches its loop. */
  lemma TurnRuns(w: World, o: OpID, r: RunID) returns (next: World)
    requires Inv(w) && ReadyToRun(w, o, r)
    ensures Leads(w, [FirstCheck(o), Starts(o, r), SecondCheck(o), StartHandled(r), LoopEntered(r)], next)
    ensures next.relations == w.relations && r in next.runs
    ensures var Prepared(t, p, g) := w.ops[o];
            next.runs[r] == Run(w.relations.coords[t].child, t, p, g, true, true, false, false, true, false, true, false)
  {
    var Prepared(t, p, g) := w.ops[o];
    assert OpSound(w, o) && Owns(w, t, p, g) && PermitSound(w, t, p, g);
    assert Leads(w, [], w);
    StepLists(o, r);
    hide Leads, StartError, Inv, OpSound, Owns, PermitSound, Then, Enabled, Crossed;
    CheckPasses(w, o, r);
    var passed := Then(w, FirstCheck(o));
    var started := StartedWorld(w, o, r);
    SecondCheckPasses(w, o, r);
    PassedMeansUncovered(w, t, p, g);
    var free := Ended(started, o);
    assert free.families == w.families && free.closed == w.closed && free.deleted == w.deleted && r in free.runs;
    var handled := Announced(w, free, t, p, g, r);
    LeadsNext(w, [], w, FirstCheck(o));
    LeadsNext(w, [FirstCheck(o)], passed, Starts(o, r));
    LeadsNext(w, [FirstCheck(o), Starts(o, r)], started, SecondCheck(o));
    LeadsNext(w, [FirstCheck(o), Starts(o, r), SecondCheck(o)], free, StartHandled(r));
    LeadsNext(w, [FirstCheck(o), Starts(o, r), SecondCheck(o), StartHandled(r)], handled, LoopEntered(r));
    next := Then(handled, LoopEntered(r));
  }

  lemma StepLists(o: OpID, r: RunID)
    ensures [] + [FirstCheck(o)] == [FirstCheck(o)] && [FirstCheck(o)] + [Starts(o, r)] == [FirstCheck(o), Starts(o, r)]
    ensures [FirstCheck(o), Starts(o, r)] + [SecondCheck(o)] == [FirstCheck(o), Starts(o, r), SecondCheck(o)]
    ensures [FirstCheck(o), Starts(o, r), SecondCheck(o)] + [StartHandled(r)] == [FirstCheck(o), Starts(o, r), SecondCheck(o), StartHandled(r)]
    ensures [FirstCheck(o), Starts(o, r), SecondCheck(o), StartHandled(r)] + [LoopEntered(r)]
            == [FirstCheck(o), Starts(o, r), SecondCheck(o), StartHandled(r), LoopEntered(r)]
  {}

  lemma Announced(w: World, free: World, t: TaskID, p: Permit, g: nat, r: RunID) returns (handled: World)
    requires free.relations == w.relations && free.families == w.families && free.closed == w.closed && free.deleted == w.deleted
    requires t in w.relations.coords && !StartError(w, t) && !Crossed(w, t, p, g) && r in free.runs
    requires free.runs[r] == Run(w.relations.coords[t].child, t, p, g, true, true, false, false, false, false, false, false)
    ensures Enabled(free, StartHandled(r)) && handled == Then(free, StartHandled(r))
    ensures Enabled(handled, LoopEntered(r)) && handled.relations == w.relations
    ensures var next := Then(handled, LoopEntered(r));
            next.relations == w.relations && r in next.runs
            && next.runs[r] == Run(w.relations.coords[t].child, t, p, g, true, true, false, false, true, false, true, false)
  {
    SameErrors(w, free, t);
    handled := Then(free, StartHandled(r));
    hide StartError;
  }

  lemma {:induction false} LeadsJoin(w: World, a: seq<Step>, mid: World, b: seq<Step>, next: World)
    requires Leads(w, a, mid) && Leads(mid, b, next)
    ensures Leads(w, a + b, next)
    decreases |a|
  {
    hide Enabled, Then;
    if a == [] {
      assert a + b == b && mid == w;
    } else {
      var all := a + b;
      assert all[0] == a[0] && all[1..] == a[1..] + b;
      LeadsJoin(Then(w, a[0]), a[1..], mid, b, next);
    }
  }

  lemma OneStep(w: World, s: Step)
    requires Enabled(w, s)
    ensures Leads(w, [s], Then(w, s))
  {
    assert Leads(w, [], w);
    LeadsNext(w, [], w, s);
    assert [] + [s] == [s];
  }

  function TurnSteps(o: OpID, r: RunID): seq<Step> {
    [FirstCheck(o), Starts(o, r), SecondCheck(o), StartHandled(r), LoopEntered(r)]
  }

  /** A permit just given is good. */
  lemma FreshPermit(w: World, o: OpID, parent: SessionID, run: RunID)
    requires Enabled(w, SpawnAdmits(o, parent, run))
    ensures var next, p := Then(w, SpawnAdmits(o, parent, run)), Permit(parent, run, Generation(w, parent));
            next == Goes(w, o, SpawnPermitted(p)) && !AdmissionError(next, p)
  {
    hide ActiveRuns;
  }

  lemma PublishPasses(w: World, o: OpID, t: TaskID, c: SessionID)
    requires o in w.ops && w.ops[o].SpawnPermitted? && !AdmissionError(w, w.ops[o].permit)
    requires t !in w.used && t !in w.relations.coords && c !in w.relations.childSessions && c !in w.current && c !in w.roots
    ensures Enabled(w, SpawnPublishes(o, t, c))
    ensures var next, p := Then(w, SpawnPublishes(o, t, c)), w.ops[o].permit;
            && o in next.ops && next.ops[o] == SpawnPublished(t, p)
            && t in next.relations.coords && next.relations.coords[t] == Coord(p.parent, c, p, false, 0)
            && next.current == w.current && next.runs == w.runs && next.roots == w.roots && !AdmissionError(next, p)
  {}

  lemma SavePasses(w: World, o: OpID, c: SessionID, r: RunID)
    requires o in w.ops && w.ops[o].SpawnPublished? && w.ops[o].task in w.relations.coords
    requires w.relations.coords[w.ops[o].task] == Coord(w.ops[o].permit.parent, c, w.ops[o].permit, false, 0)
    requires !AdmissionError(w, w.ops[o].permit) && c !in w.current && r !in w.runs && forall s :: s in w.roots ==> w.roots[s] != r
    ensures Enabled(w, SpawnSaves(o))
    ensures var next := Then(w, SpawnSaves(o));
            && ReadyToRun(next, o, r) && next.relations == w.relations
            && next.ops[o] == Prepared(w.ops[o].task, w.ops[o].permit, 0)
  {}

  lemma SpawnReachesAdmission(w: World, o: OpID, parent: SessionID, run: RunID) returns (next: World)
    requires Inv(w) && Enabled(w, SpawnAdmits(o, parent, run))
    ensures Leads(w, [SpawnAdmits(o, parent, run)], next) && Inv(next)
    ensures var p := Permit(parent, run, Generation(w, parent));
            && o in next.ops && next.ops[o] == SpawnPermitted(p) && !AdmissionError(next, p)
            && next.relations == w.relations && next.used == w.used && next.current == w.current && next.roots == w.roots && next.runs == w.runs
  {
    hide Inv, Leads, AdmissionError, Then, Enabled, Generation;
    FreshPermit(w, o, parent, run);
    next := Then(w, SpawnAdmits(o, parent, run));
    OneStep(w, SpawnAdmits(o, parent, run));
    StepKeeps(w, SpawnAdmits(o, parent, run));
  }

  lemma SpawnReachesPublishing(w: World, o: OpID, parent: SessionID, run: RunID, t: TaskID, c: SessionID) returns (next: World)
    requires Inv(w) && Enabled(w, SpawnAdmits(o, parent, run))
    requires t !in w.used && c !in w.relations.childSessions && c !in w.current && c !in w.roots
    ensures Leads(w, [SpawnAdmits(o, parent, run), SpawnPublishes(o, t, c)], next) && Inv(next)
    ensures var p := Permit(parent, run, Generation(w, parent));
            && o in next.ops && next.ops[o] == SpawnPublished(t, p) && !AdmissionError(next, p)
            && t in next.relations.coords && next.relations.coords[t] == Coord(parent, c, p, false, 0)
            && next.current == w.current && next.runs == w.runs && next.roots == w.roots
  {
    assert t !in w.relations.coords;
    hide *;
    var admitted := SpawnReachesAdmission(w, o, parent, run);
    PublishPasses(admitted, o, t, c);
    next := Then(admitted, SpawnPublishes(o, t, c));
    LeadsNext(w, [SpawnAdmits(o, parent, run)], admitted, SpawnPublishes(o, t, c));
    assert [SpawnAdmits(o, parent, run)] + [SpawnPublishes(o, t, c)] == [SpawnAdmits(o, parent, run), SpawnPublishes(o, t, c)];
    StepKeeps(admitted, SpawnPublishes(o, t, c));
  }

  /** A spawn that is admitted, under fresh names, and that nothing crosses, ends with its child in the loop: neither the
      checks nor the start notification stop it. */
  lemma SpawnGetsThrough(w: World, o: OpID, parent: SessionID, run: RunID, t: TaskID, c: SessionID, r: RunID) returns (next: World)
    requires Inv(w) && Enabled(w, SpawnAdmits(o, parent, run))
    requires t !in w.used && c !in w.relations.childSessions && c !in w.current && c !in w.roots
    requires r !in w.runs && forall s :: s in w.roots ==> w.roots[s] != r
    ensures Leads(w, [SpawnAdmits(o, parent, run), SpawnPublishes(o, t, c), SpawnSaves(o)] + TurnSteps(o, r), next)
    ensures r in next.runs && t in next.relations.coords && next.relations.coords[t].parent == parent && next.relations.coords[t].child == c
    ensures var n := next.runs[r]; n.session == c && n.task == t && n.active && n.looping && !n.canceled && !n.stopCalled
  {
    hide Inv, Leads, AdmissionError, ReadyToRun, Then, Enabled, Generation;
    var published := SpawnReachesPublishing(w, o, parent, run, t, c);
    SavePasses(published, o, c, r);
    var saved := Then(published, SpawnSaves(o));
    var first := [SpawnAdmits(o, parent, run), SpawnPublishes(o, t, c)];
    LeadsNext(w, first, published, SpawnSaves(o));
    assert first + [SpawnSaves(o)] == [SpawnAdmits(o, parent, run), SpawnPublishes(o, t, c), SpawnSaves(o)];
    StepKeeps(published, SpawnSaves(o));
    next := TurnRuns(saved, o, r);
    LeadsJoin(w, first + [SpawnSaves(o)], saved, TurnSteps(o, r), next);
  }

  // ---------- another turn of a task ----------

  ghost predicate MaySend(w: World, o: OpID, parent: SessionID, run: RunID, t: TaskID, r: RunID) {
    && Enabled(w, SendBegins(o, parent, run, t)) && t !in w.holder
    && w.relations.coords[t].child !in w.current && r !in w.runs && forall s :: s in w.roots ==> w.roots[s] != r
  }

  lemma SendPermit(w: World, o: OpID, parent: SessionID, run: RunID, t: TaskID)
    requires BaseSound(w) && Enabled(w, SendBegins(o, parent, run, t))
    ensures var p := Permit(parent, run, Generation(w, parent));
            && Then(w, SendBegins(o, parent, run, t)) == Goes(w, o, SendPermitted(t, p, w.relations.coords[t].stopGeneration))
            && !AdmissionError(w, p)
  {
    hide ActiveRuns, Agree;
  }

  /** Everything a check or a later step reads is as in `w`. */
  predicate SameForChecks(w: World, next: World) {
    && next.relations == w.relations && next.families == w.families && next.closed == w.closed && next.deleted == w.deleted
    && next.current == w.current && next.runs == w.runs && next.roots == w.roots
  }

  lemma LockPasses(w: World, o: OpID)
    requires o in w.ops && w.ops[o].SendPermitted? && w.ops[o].task in w.relations.coords && w.ops[o].task !in w.holder
    ensures Enabled(w, SendLocks(o)) && SameForChecks(w, Then(w, SendLocks(o))) && o in Then(w, SendLocks(o)).ops
    ensures Then(w, SendLocks(o)).ops[o] == SendLocked(w.ops[o].task, w.ops[o].permit, w.ops[o].stopGeneration)
  {}

  lemma LookPasses(w: World, o: OpID)
    requires o in w.ops && w.ops[o].SendLocked? && w.ops[o].task in w.relations.coords
    requires !AdmissionError(w, w.ops[o].permit) && w.relations.coords[w.ops[o].task].stopGeneration == w.ops[o].stopGeneration
    ensures Enabled(w, SendChecks(o)) && SameForChecks(w, Then(w, SendChecks(o))) && o in Then(w, SendChecks(o)).ops
    ensures Then(w, SendChecks(o)).ops[o] == SendChecked(w.ops[o].task, w.ops[o].permit, w.ops[o].stopGeneration)
  {}

  lemma IdlePasses(w: World, o: OpID)
    requires o in w.ops && w.ops[o].SendChecked? && w.ops[o].task in w.relations.coords
    requires w.relations.coords[w.ops[o].task].child !in w.current
    ensures Enabled(w, SendFindsIdle(o)) && SameForChecks(w, Then(w, SendFindsIdle(o))) && o in Then(w, SendFindsIdle(o)).ops
    ensures Then(w, SendFindsIdle(o)).ops[o] == SendIdle(w.ops[o].task, w.ops[o].permit, w.ops[o].stopGeneration)
  {}

  lemma RenewPasses(w: World, o: OpID, r: RunID)
    requires o in w.ops && w.ops[o].SendIdle? && w.ops[o].task in w.relations.coords && w.relations.coords[w.ops[o].task].child !in w.current
    requires !AdmissionError(w, w.ops[o].permit) && w.relations.coords[w.ops[o].task].stopGeneration == w.ops[o].stopGeneration
    requires r !in w.runs && forall s :: s in w.roots ==> w.roots[s] != r
    ensures Enabled(w, SendRenews(o)) && ReadyToRun(Then(w, SendRenews(o)), o, r)
    ensures var next, t := Then(w, SendRenews(o)), w.ops[o].task;
            && next.ops[o] == Prepared(t, w.ops[o].permit, w.ops[o].stopGeneration)
            && next.relations.coords[t].child == w.relations.coords[t].child
  {}

  lemma SameAdmission(w: World, next: World, p: Permit)
    requires SameForChecks(w, next)
    ensures AdmissionError(next, p) == AdmissionError(w, p)
  {}

  lemma SendReachesCheck(w: World, o: OpID, parent: SessionID, run: RunID, t: TaskID) returns (checked: World)
    requires Inv(w) && Enabled(w, SendBegins(o, parent, run, t)) && t !in w.holder
    ensures Leads(w, [SendBegins(o, parent, run, t), SendLocks(o), SendChecks(o)], checked) && Inv(checked) && SameForChecks(w, checked)
    ensures t in w.relations.coords && o in checked.ops && !AdmissionError(w, Permit(parent, run, Generation(w, parent)))
    ensures checked.ops[o] == SendChecked(t, Permit(parent, run, Generation(w, parent)), w.relations.coords[t].stopGeneration)
  {
    assert t in w.relations.coords;
    hide Leads, AdmissionError, Then, Enabled, OpsSound, RunsFit, RunsStop, FamilyOf;
    SendPermit(w, o, parent, run, t);
    var begun := Then(w, SendBegins(o, parent, run, t));
    var p := Permit(parent, run, Generation(w, parent));
    hide Inv, BaseSound, Generation;
    OneStep(w, SendBegins(o, parent, run, t));
    StepKeeps(w, SendBegins(o, parent, run, t));
    LockPasses(begun, o);
    var locked := Then(begun, SendLocks(o));
    LeadsNext(w, [SendBegins(o, parent, run, t)], begun, SendLocks(o));
    StepKeeps(begun, SendLocks(o));
    SameAdmission(w, locked, p);
    LookPasses(locked, o);
    checked := Then(locked, SendChecks(o));
    var first := [SendBegins(o, parent, run, t), SendLocks(o)];
    assert [SendBegins(o, parent, run, t)] + [SendLocks(o)] == first;
    LeadsNext(w, first, locked, SendChecks(o));
    assert first + [SendChecks(o)] == [SendBegins(o, parent, run, t), SendLocks(o), SendChecks(o)];
    StepKeeps(locked, SendChecks(o));
  }

  /** A message to an idle child starts a new turn that reaches its loop, also when the task was stopped before: only a stop
      after the message was accepted holds it up. */
  lemma SendGetsThrough(w: World, o: OpID, parent: SessionID, run: RunID, t: TaskID, r: RunID) returns (next: World)
    requires Inv(w) && MaySend(w, o, parent, run, t, r)
    ensures Leads(w, [SendBegins(o, parent, run, t), SendLocks(o), SendChecks(o), SendFindsIdle(o), SendRenews(o)] + TurnSteps(o, r), next)
    ensures r in next.runs
    ensures var n := next.runs[r]; n.task == t && n.active && n.looping && !n.canceled && !n.stopCalled
  {
    hide Inv, Leads, AdmissionError, Then, Enabled, SameForChecks, Generation;
    var steps := [SendBegins(o, parent, run, t), SendLocks(o), SendChecks(o)];
    var checked := SendReachesCheck(w, o, parent, run, t);
    next := SentTurn(w, checked, steps, o, Permit(parent, run, Generation(w, parent)), t, r);
    assert steps + [SendFindsIdle(o)] + [SendRenews(o)]
           == [SendBegins(o, parent, run, t), SendLocks(o), SendChecks(o), SendFindsIdle(o), SendRenews(o)];
  }

  lemma SentTurn(w: World, checked: World, steps: seq<Step>, o: OpID, p: Permit, t: TaskID, r: RunID) returns (next: World)
    requires Leads(w, steps, checked) && Inv(checked) && SameForChecks(w, checked) && t in w.relations.coords
    requires o in checked.ops && checked.ops[o] == SendChecked(t, p, w.relations.coords[t].stopGeneration) && !AdmissionError(w, p)
    requires w.relations.coords[t].child !in w.current && r !in w.runs && forall s :: s in w.roots ==> w.roots[s] != r
    ensures Leads(w, steps + [SendFindsIdle(o)] + [SendRenews(o)] + TurnSteps(o, r), next)
    ensures r in next.runs
    ensures var n := next.runs[r]; n.task == t && n.active && n.looping && !n.canceled && !n.stopCalled
  {
    hide Inv, Leads, AdmissionError, ReadyToRun, Then, Enabled;
    IdlePasses(checked, o);
    var idle := Then(checked, SendFindsIdle(o));
    LeadsNext(w, steps, checked, SendFindsIdle(o));
    StepKeeps(checked, SendFindsIdle(o));
    SameAdmission(w, idle, p);
    RenewPasses(idle, o, r);
    var renewed := Then(idle, SendRenews(o));
    LeadsNext(w, steps + [SendFindsIdle(o)], idle, SendRenews(o));
    StepKeeps(idle, SendRenews(o));
    next := TurnRuns(renewed, o, r);
    LeadsJoin(w, steps + [SendFindsIdle(o)] + [SendRenews(o)], renewed, TurnSteps(o, r), next);
  }
}
