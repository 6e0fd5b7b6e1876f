/** How deep delegation can get (internal/subagents/family.go, spawn.go): the depth of the parent is
    measured in a lock section of its own, long before the task is published, and other operations may
    change the relations in between. */
module DepthLimit {
  import opened Basics
  import opened Delegation
  import Protocol = StopProtocol

  /** The session has no more than `d` ancestors. */
  ghost predicate AtMost(r: Relations, s: SessionID, d: nat) {
    exists e: nat :: e <= d && HasDepth(r, s, e)
  }

  /** `measured` remembers for which parent an operation has found room. */
  datatype World = World(service: Protocol.World, measured: map<Protocol.OpID, SessionID>)

  datatype Step =
    | Measures(op: Protocol.OpID, parent: SessionID)
    | Takes(step: Protocol.Step)

  function Rel(w: World): Relations {
    w.service.relations
  }

  /** A fresh child session is nobody's parent yet. */
  predicate Unseen(w: World, c: SessionID) {
    && (forall t :: t in Rel(w).coords ==> Rel(w).coords[t].parent != c)
    && (forall o :: o in w.measured ==> w.measured[o] != c)
  }

  /** A spawn asks for a permit only after its measurement, which is never repeated. */
  ghost predicate Enabled(w: World, step: Step) {
    match step
    case Measures(o, parent) =>
      o !in w.measured && o !in w.service.ops && exists d: nat :: d < maxDelegationDepth && HasDepth(Rel(w), parent, d)
    case Takes(s) =>
      && Protocol.Enabled(w.service, s)
      && match s
         case SpawnAdmits(o, parent, _) => o in w.measured && w.measured[o] == parent
         case SpawnPublishes(_, _, c) => Unseen(w, c)
         case _ => true
  }

  ghost function Then(w: World, step: Step): World
    requires Enabled(w, step)
  {
    match step
    case Measures(o, parent) => w.(measured := w.measured[o := parent])
    case Takes(s) => w.(service := Protocol.Then(w.service, s))
  }

  /** Roots and their own children have room for a child, and nobody else has. */
  lemma RoomForChild(w: World, o: Protocol.OpID, parent: SessionID)
    requires o !in w.measured && o !in w.service.ops
    ensures var r := Rel(w);
            Enabled(w, Measures(o, parent)) <==>
              || parent !in r.childSessions
              || (r.childSessions[parent] in r.coords && r.coords[r.childSessions[parent]].parent !in r.childSessions)
  {
    var r := Rel(w);
    if parent !in r.childSessions {
      assert HasDepth(r, parent, 0);
    } else if r.childSessions[parent] in r.coords && r.coords[r.childSessions[parent]].parent !in r.childSessions {
      assert HasDepth(r, r.coords[r.childSessions[parent]].parent, 0);
      assert HasDepth(r, parent, 1);
    }
    if Enabled(w, Measures(o, parent)) {
      var d: nat :| d < maxDelegationDepth && HasDepth(r, parent, d);
      assert d == 0 || HasDepth(r, r.coords[r.childSessions[parent]].parent, 0);
    }
  }

  // ---------- what a step does to the relations ----------

  predicate SameParents(r: Relations, next: Relations) {
    && next.childSessions == r.childSessions && next.coords.Keys == r.coords.Keys
    && forall t :: t in r.coords ==> next.coords[t].parent == r.coords[t].parent
  }

  ghost predicate RelationsMove(w: Protocol.World, s: Protocol.Step, next: Relations) {
    var r := w.relations;
    || SameParents(r, next)
    || (s.SpawnPublishes? && s.op in w.ops && w.ops[s.op].SpawnPermitted? && s.task !in r.coords && s.child !in r.childSessions
        && next == Published(r, s.task, Coord(w.ops[s.op].permit.parent, s.child, w.ops[s.op].permit, false, 0)))
    || (s.SpawnForgets? && exists t :: t in r.coords && next == Forgotten(r, t, r.coords[t].parent, r.coords[t].child))
    || (s.Deletes? && next == Pruned(r, TasksUnder(r, s.forest)))
  }

  /** A stop marks tasks and leaves parents and operations alone. */
  lemma StopEffect(w: Protocol.World, tree: set<SessionID>)
    ensures SameParents(w.relations, Protocol.TreeStopped(w, tree).relations)
    ensures Protocol.TreeStopped(w, tree).ops == w.ops
  {
    hide Protocol.ActiveRuns, ActiveIn, Protocol.StopCalls;
  }

  /** Steps of a run, of the roots and of the service. */
  predicate OfRuns(s: Protocol.Step) {
    s.StartHandled? || s.LoopEntered? || s.RunEnds? || s.RunReleased? || s.RunCanceled? || s.RootChanges? || s.Closes?
  }

  predicate OfStops(s: Protocol.Step) {
    s.StopsTask? || s.StopsFamily?
  }

  predicate OfOperation(s: Protocol.Step) {
    !OfRuns(s) && !OfStops(s) && !s.Deletes?
  }

  lemma DeletionEffect(w: Protocol.World, s: Protocol.Step)
    requires Protocol.Enabled(w, s) && s.Deletes?
    ensures Protocol.Then(w, s).relations == Pruned(w.relations, TasksUnder(w.relations, s.forest)) && Protocol.Then(w, s).ops == w.ops
  {
    hide Pruned, IsForest, TasksUnder, Protocol.ActiveChild;
  }

  lemma RunMovesEffect(w: Protocol.World, s: Protocol.Step)
    requires Protocol.Enabled(w, s) && (s.StartHandled? || s.LoopEntered? || s.RunEnds?)
    ensures Protocol.Then(w, s).relations == w.relations && Protocol.Then(w, s).ops == w.ops
  {
    hide Protocol.ActiveRuns, Protocol.Over, Protocol.Covered, Protocol.StartError, IsTree, IsForest, Protocol.TreeDeleted, Protocol.TreeStopped,
         Published, Forgotten, Admission, Protocol.AdmissionError, Pruned, TasksUnder, Protocol.StopCalls, Protocol.Generation, Protocol.Goes,
         Protocol.Ended, HasDepth, Protocol.ActiveChild;
  }

  lemma RunEndsEffect(w: Protocol.World, s: Protocol.Step)
    requires Protocol.Enabled(w, s) && (s.RunReleased? || s.RunCanceled? || s.RootChanges? || s.Closes?)
    ensures Protocol.Then(w, s).relations == w.relations && Protocol.Then(w, s).ops == w.ops
  {
    hide Protocol.ActiveRuns, Protocol.Over, Protocol.Covered, Protocol.StartError, IsTree, IsForest, Protocol.TreeDeleted, Protocol.TreeStopped,
         Published, Forgotten, Admission, Protocol.AdmissionError, Pruned, TasksUnder, Protocol.StopCalls, Protocol.Generation, Protocol.Goes,
         Protocol.Ended, HasDepth, Protocol.ActiveChild;
  }

  lemma RunStepsEffect(w: Protocol.World, s: Protocol.Step)
    requires Protocol.Enabled(w, s) && OfRuns(s)
    ensures Protocol.Then(w, s).relations == w.relations && Protocol.Then(w, s).ops == w.ops
  {
    hide Protocol.Enabled, Protocol.Then;
    if s.StartHandled? || s.LoopEntered? || s.RunEnds? { RunMovesEffect(w, s); } else { RunEndsEffect(w, s); }
  }

  lemma StopStepsEffect(w: Protocol.World, s: Protocol.Step)
    requires Protocol.Enabled(w, s) && OfStops(s)
    ensures SameParents(w.relations, Protocol.Then(w, s).relations) && Protocol.Then(w, s).ops == w.ops
  {
    hide Protocol.TreeStopped, IsTree, IsForest, Protocol.TreeDeleted, Protocol.ActiveChild, Published, Forgotten, Admission,
         Protocol.AdmissionError, Protocol.StartError;
    match s
    case StopsTask(t, tree) => StopEffect(Protocol.TaskMarked(w, t), tree);
    case StopsFamily(_, tree) => StopEffect(w, tree);
  }

  /** A step of operation `op` changes that operation alone. */
  lemma OperationEffect(w: Protocol.World, s: Protocol.Step, o: Protocol.OpID)
    requires Protocol.Enabled(w, s) && OfOperation(s) && o != s.op
    ensures o in Protocol.Then(w, s).ops <==> o in w.ops
    ensures o in w.ops ==> Protocol.Then(w, s).ops[o] == w.ops[o]
  {
    hide Protocol.ActiveRuns, Protocol.AdmissionError, Protocol.StartError, Forgotten, Published, IsTree, Protocol.TreeStopped, Admission, Protocol.Ended;
  }

  lemma OperationRelations(w: Protocol.World, s: Protocol.Step)
    requires Protocol.Enabled(w, s) && OfOperation(s)
    ensures RelationsMove(w, s, Protocol.Then(w, s).relations)
  {
    hide Protocol.ActiveRuns, Protocol.AdmissionError, Protocol.StartError, Forgotten, Published, IsTree, Protocol.TreeStopped, Admission, Protocol.Ended;
    if s.SpawnForgets? {
      var t := w.ops[s.op].task;
      if t in w.relations.coords {
        assert Protocol.Then(w, s).relations == Forgotten(w.relations, t, w.relations.coords[t].parent, w.relations.coords[t].child);
      }
    }
  }

  lemma RelationsAfter(w: Protocol.World, s: Protocol.Step)
    requires Protocol.Enabled(w, s)
    ensures RelationsMove(w, s, Protocol.Then(w, s).relations)
  {
    hide Protocol.Then, Protocol.Enabled;
    if OfRuns(s) {
      RunStepsEffect(w, s);
    } else if OfStops(s) {
      StopStepsEffect(w, s);
    } else if s.Deletes? {
      DeletionEffect(w, s);
    } else {
      OperationRelations(w, s);
    }
  }

  /** An operation's own step leaves it with a spawn permit only when that has just been given. */
  lemma OwnPermit(w: Protocol.World, s: Protocol.Step)
    requires Protocol.Enabled(w, s) && OfOperation(s)
    requires s.op in Protocol.Then(w, s).ops && Protocol.Then(w, s).ops[s.op].SpawnPermitted?
    ensures s.SpawnAdmits? && Protocol.Then(w, s).ops[s.op].permit.parent == s.parent
  {
    hide Protocol.ActiveRuns, Protocol.AdmissionError, Protocol.StartError, Forgotten, Published, IsTree, Protocol.TreeStopped, Admission, Protocol.Ended;
  }

  /** Who holds a spawn permit has just been given it or held it before. */
  lemma PermitsAfter(w: Protocol.World, s: Protocol.Step, o: Protocol.OpID)
    requires Protocol.Enabled(w, s) && o in Protocol.Then(w, s).ops && Protocol.Then(w, s).ops[o].SpawnPermitted?
    ensures (s.SpawnAdmits? && s.op == o && Protocol.Then(w, s).ops[o].permit.parent == s.parent)
            || (o in w.ops && w.ops[o] == Protocol.Then(w, s).ops[o])
  {
    hide Protocol.Then, Protocol.Enabled;
    if OfRuns(s) {
      RunStepsEffect(w, s);
    } else if OfStops(s) {
      StopStepsEffect(w, s);
    } else if s.Deletes? {
      DeletionEffect(w, s);
    } else if o == s.op {
      OwnPermit(w, s);
    } else {
      OperationEffect(w, s, o);
    }
  }

  // ---------- depth never grows ----------

  lemma {:induction false} SameDepth(r: Relations, next: Relations, s: SessionID, d: nat)
    requires SameParents(r, next) && HasDepth(r, s, d)
    ensures HasDepth(next, s, d)
    decreases d
  {
    if s in r.childSessions { SameDepth(r, next, r.coords[r.childSessions[s]].parent, d - 1); }
  }

  lemma {:induction false} ForgetShortens(r: Relations, t: TaskID, s: SessionID, d: nat)
    requires Agree(r) && t in r.coords && HasDepth(r, s, d)
    ensures AtMost(Forgotten(r, t, r.coords[t].parent, r.coords[t].child), s, d)
    decreases d
  {
    var next := Forgotten(r, t, r.coords[t].parent, r.coords[t].child);
    if s !in r.childSessions || s == r.coords[t].child {
      assert HasDepth(next, s, 0);
    } else {
      var x := r.childSessions[s];
      assert x in r.coords && r.coords[x].child == s;
      var parent := r.coords[x].parent;
      ForgetShortens(r, t, parent, d - 1);
      var e: nat :| e <= d - 1 && HasDepth(next, parent, e);
      assert x in next.coords && next.childSessions[s] == x;
      assert HasDepth(next, s, e + 1);
    }
  }

  lemma {:induction false} PruneShortens(r: Relations, gone: set<TaskID>, s: SessionID, d: nat)
    requires HasDepth(r, s, d)
    ensures AtMost(Pruned(r, gone), s, d)
    decreases d
  {
    var next := Pruned(r, gone);
    if s !in r.childSessions || r.childSessions[s] in gone {
      assert s !in next.childSessions && HasDepth(next, s, 0);
    } else {
      var x := r.childSessions[s];
      PruneShortens(r, gone, r.coords[x].parent, d - 1);
      var e: nat :| e <= d - 1 && HasDepth(next, r.coords[x].parent, e);
      assert next.childSessions[s] == x && x in next.coords && next.coords[x] == r.coords[x];
      assert HasDepth(next, s, e + 1);
    }
  }

  /** No step makes a session that is there already lie deeper. */
  lemma NeverDeeper(w: World, step: Step, s: SessionID, d: nat)
    requires Enabled(w, step) && Agree(Rel(w)) && AtMost(Rel(w), s, d)
    requires step.Takes? && step.step.SpawnPublishes? ==> s != step.step.child
    ensures AtMost(Rel(Then(w, step)), s, d)
  {
    if step.Takes? {
      var e: nat :| e <= d && HasDepth(Rel(w), s, e);
      var r, next := Rel(w), Rel(Then(w, step));
      RelationsAfter(w.service, step.step);
      hide Protocol.Then, Protocol.Enabled, Published, Forgotten;
      if SameParents(r, next) {
        SameDepth(r, next, s, e);
      } else if step.step.SpawnPublishes? {
        var p := w.service.ops[step.step.op].permit;
        PublishKeepsDepth(r, step.step.task, Coord(p.parent, step.step.child, p, false, 0), s, e);
      } else if step.step.Deletes? {
        PruneShortens(r, TasksUnder(r, step.step.forest), s, e);
      } else {
        var t :| t in r.coords && next == Forgotten(r, t, r.coords[t].parent, r.coords[t].child);
        ForgetShortens(r, t, s, e);
      }
    }
  }

  // ---------- the limit ----------

  ghost predicate Measured(w: World) {
    && (forall o :: o in w.measured ==> AtMost(Rel(w), w.measured[o], maxDelegationDepth - 1))
    && (forall o :: o in w.service.ops && w.service.ops[o].SpawnPermitted? ==>
          o in w.measured && w.measured[o] == w.service.ops[o].permit.parent)
  }

  ghost predicate Limited(r: Relations) {
    forall c :: c in r.childSessions ==> AtMost(r, c, maxDelegationDepth)
  }

  ghost predicate Inv(w: World) {
    Protocol.Inv(w.service) && Measured(w) && Limited(Rel(w))
  }

  lemma MeasuredKeeps(w: World, step: Step)
    requires Agree(Rel(w)) && Measured(w) && Enabled(w, step)
    ensures Measured(Then(w, step))
  {
    var next := Then(w, step);
    forall o | o in next.measured
      ensures AtMost(Rel(next), next.measured[o], maxDelegationDepth - 1)
    {
      if step.Measures? && o == step.op {
        var d: nat :| d < maxDelegationDepth && HasDepth(Rel(w), step.parent, d);
      } else {
        NeverDeeper(w, step, w.measured[o], maxDelegationDepth - 1);
      }
    }
    if step.Takes? {
      forall o | o in next.service.ops && next.service.ops[o].SpawnPermitted?
        ensures o in next.measured && next.measured[o] == next.service.ops[o].permit.parent
      {
        PermitsAfter(w.service, step.step, o);
        hide Protocol.Then, Protocol.Enabled, AtMost;
      }
    }
  }

  /** A new child lies one below its parent, whose early measurement still bounds it. */
  lemma NewChildFits(w: World, step: Step)
    requires Agree(Rel(w)) && Measured(w) && Enabled(w, step) && step.Takes? && step.step.SpawnPublishes?
    requires step.step.child in Rel(Then(w, step)).childSessions
    ensures AtMost(Rel(Then(w, step)), step.step.child, maxDelegationDepth)
  {
    var s, r, next := step.step, Rel(w), Rel(Then(w, step));
    var p := w.service.ops[s.op].permit;
    RelationsAfter(w.service, s);
    assert s.child !in r.childSessions;
    assert w.measured[s.op] == p.parent != s.child;
    NeverDeeper(w, step, p.parent, maxDelegationDepth - 1);
    hide Protocol.Then, Protocol.Enabled;
    assert !SameParents(r, next);
    var e: nat :| e <= maxDelegationDepth - 1 && HasDepth(next, p.parent, e);
    assert HasDepth(next, s.child, e + 1);
  }

  lemma LimitKeeps(w: World, step: Step)
    requires Agree(Rel(w)) && Measured(w) && Limited(Rel(w)) && Enabled(w, step)
    ensures Limited(Rel(Then(w, step)))
  {
    var r, next := Rel(w), Rel(Then(w, step));
    forall c | c in next.childSessions
      ensures AtMost(next, c, maxDelegationDepth)
    {
      if step.Takes? && step.step.SpawnPublishes? && c == step.step.child {
        NewChildFits(w, step);
      } else {
        OldChild(w, step, c);
        NeverDeeper(w, step, c, maxDelegationDepth);
      }
    }
  }

  lemma OldChild(w: World, step: Step, c: SessionID)
    requires Enabled(w, step) && c in Rel(Then(w, step)).childSessions
    requires step.Takes? && step.step.SpawnPublishes? ==> c != step.step.child
    ensures c in Rel(w).childSessions
  {
    if step.Takes? {
      RelationsAfter(w.service, step.step);
      hide Protocol.Then, Protocol.Enabled;
    }
  }

  lemma StepKeeps(w: World, step: Step)
    requires Inv(w) && Enabled(w, step)
    ensures Inv(Then(w, step))
  {
    assert Agree(Rel(w));
    hide Protocol.Inv, Measured, Limited;
    MeasuredKeeps(w, step);
    LimitKeeps(w, step);
    if step.Takes? { Protocol.StepKeeps(w.service, step.step); }
  }

  ghost predicate Follows(w: World, steps: seq<Step>)
    decreases |steps|
  {
    steps == [] || (Enabled(w, steps[0]) && Follows(Then(w, steps[0]), steps[1..]))
  }

  ghost function Run(w: World, steps: seq<Step>): World
    requires Follows(w, steps)
    decreases |steps|
  {
    if steps == [] then w else Run(Then(w, steps[0]), steps[1..])
  }

  lemma {:induction false} RunKeeps(w: World, steps: seq<Step>)
    requires Inv(w) && Follows(w, steps)
    ensures Inv(Run(w, steps))
    decreases |steps|
  {
    hide Inv, Then, Enabled;
    if steps != [] {
      StepKeeps(w, steps[0]);
      RunKeeps(Then(w, steps[0]), steps[1..]);
    }
  }

  /** In every interleaving of spawns, sends, stops and deletions no child session ever lies deeper than the limit,
      although each spawn has measured its parent in a lock section of its own. */
  lemma DepthStaysLimited(steps: seq<Step>)
    requires Follows(World(Protocol.nothing, map[]), steps)
    ensures DepthLimited(Rel(Run(World(Protocol.nothing, map[]), steps)))
  {
    var start := World(Protocol.nothing, map[]);
    assert Protocol.Inv(Protocol.nothing);
    RunKeeps(start, steps);
    hide Protocol.Inv, Measured;
    var r := Rel(Run(start, steps));
    forall c | c in r.childSessions
      ensures exists d: nat :: d <= maxDelegationDepth && HasDepth(r, c, d)
    {
      assert AtMost(r, c, maxDelegationDepth);
    }
  }
}
