/** Task relations of the delegation service and the tree-wide stop
    (internal/subagents/family.go, stop.go, spawn.go). */
module Delegation {
  import opened Basics

  type SessionID = string
  type TaskID = string
  type RunID = string

  /** The stop boundary of a parent session. */
  datatype Family = Family(generation: nat, stoppedRunID: RunID)

  /** An accepted operation's parent run and the generation it was accepted in. */
  datatype Permit = Permit(parent: SessionID, runID: RunID, generation: nat)

  datatype Coord = Coord(parent: SessionID, child: SessionID, admission: Permit, stopRequested: bool, stopGeneration: nat)

  datatype Refusal = Closed | ParentRequired | TaskStopped | FamilyStopped | TaskNotFound | OwnershipMismatch | TaskActive | InvalidTaskData | PersistFailed

  datatype Relations = Relations(childSessions: map<SessionID, TaskID>, parentTasks: map<SessionID, seq<TaskID>>, coords: map<TaskID, Coord>)

  function TasksOf(parentTasks: map<SessionID, seq<TaskID>>, s: SessionID): seq<TaskID> {
    if s in parentTasks then parentTasks[s] else []
  }

  function FamilyOf(families: map<SessionID, Family>, s: SessionID): Family {
    if s in families then families[s] else Family(0, "")
  }

  function Elements<T(==)>(s: seq<T>): set<T> {
    set x | x in s
  }

  // ---------- the three indexes agree ----------

  predicate TaskIndexed(r: Relations, t: TaskID)
    requires t in r.coords
  {
    var c := r.coords[t];
    && c.child in r.childSessions && r.childSessions[c.child] == t
    && t in TasksOf(r.parentTasks, c.parent)
  }

  predicate ListSound(r: Relations, p: SessionID)
    requires p in r.parentTasks
  {
    && r.parentTasks[p] != [] && NoDuplicates(r.parentTasks[p])
    && forall t :: t in r.parentTasks[p] ==> t in r.coords && r.coords[t].parent == p
  }

  /** Each of the three maps says the same about every task. */
  predicate Agree(r: Relations) {
    && (forall t :: t in r.coords ==> TaskIndexed(r, t))
    && (forall c :: c in r.childSessions ==> r.childSessions[c] in r.coords && r.coords[r.childSessions[c]].child == c)
    && (forall p :: p in r.parentTasks ==> ListSound(r, p))
  }

  function Published(r: Relations, t: TaskID, c: Coord): Relations {
    Relations(r.childSessions[c.child := t], r.parentTasks[c.parent := TasksOf(r.parentTasks, c.parent) + [t]], r.coords[t := c])
  }

  function Removed(ids: seq<TaskID>, t: TaskID): seq<TaskID> {
    if ids == [] then [] else if ids[0] == t then ids[1..] else [ids[0]] + Removed(ids[1..], t)
  }

  /** `forgetTaskLocked`. */
  function Forgotten(r: Relations, t: TaskID, parent: SessionID, child: SessionID): Relations {
    var left := Removed(TasksOf(r.parentTasks, parent), t);
    Relations(r.childSessions - {child}, if left == [] then r.parentTasks - {parent} else r.parentTasks[parent := left], r.coords - {t})
  }

  lemma PublishAgrees(r: Relations, t: TaskID, c: Coord)
    requires Agree(r) && t !in r.coords && c.child !in r.childSessions
    ensures Agree(Published(r, t, c))
    ensures TasksOf(Published(r, t, c).parentTasks, c.parent) == TasksOf(r.parentTasks, c.parent) + [t]
  {
    var next := Published(r, t, c);
    forall x | x in next.coords
      ensures TaskIndexed(next, x)
    {
      if x != t { assert TaskIndexed(r, x); }
    }
    forall p | p in next.parentTasks
      ensures ListSound(next, p)
    {
      if p in r.parentTasks { assert ListSound(r, p); }
      if p == c.parent { assert forall i :: 0 <= i < |TasksOf(r.parentTasks, p)| ==> TasksOf(r.parentTasks, p)[i] in r.coords; }
    }
  }

  lemma {:induction false} RemovedMembers(ids: seq<TaskID>, t: TaskID)
    requires NoDuplicates(ids)
    ensures NoDuplicates(Removed(ids, t))
    ensures forall x :: x in Removed(ids, t) <==> x in ids && x != t
  {
    if ids != [] {
      var rest := ids[1..];
      assert forall i :: 0 <= i < |rest| ==> rest[i] == ids[i+1] && rest[i] != ids[0];
      assert ids == [ids[0]] + rest;
      if ids[0] != t {
        RemovedMembers(rest, t);
        assert ids[0] !in rest;
      }
    }
  }

  /** Taking a task back leaves the indexes in agreement. */
  lemma ForgetAgrees(r: Relations, t: TaskID)
    requires Agree(r) && t in r.coords
    ensures Agree(Forgotten(r, t, r.coords[t].parent, r.coords[t].child))
  {
    var c := r.coords[t];
    var next := Forgotten(r, t, c.parent, c.child);
    assert TaskIndexed(r, t);
    assert ListSound(r, c.parent);
    RemovedMembers(r.parentTasks[c.parent], t);
    forall x | x in next.coords
      ensures TaskIndexed(next, x)
    {
      assert TaskIndexed(r, x);
    }
    forall p | p in next.parentTasks
      ensures ListSound(next, p)
    {
      assert ListSound(r, p);
    }
  }

  /** Taking back a task that was just published undoes the publication. */
  lemma ForgetUndoesPublish(r: Relations, t: TaskID, c: Coord)
    requires Agree(r) && t !in r.coords && c.child !in r.childSessions
    ensures Forgotten(Published(r, t, c), t, c.parent, c.child) == r
  {
    var list := TasksOf(r.parentTasks, c.parent);
    assert c.parent in r.parentTasks ==> ListSound(r, c.parent);
    RemoveLast(list, t);
    assert Published(r, t, c).childSessions - {c.child} == r.childSessions;
    assert Published(r, t, c).coords - {t} == r.coords;
  }

  lemma {:induction false} RemoveLast(ids: seq<TaskID>, t: TaskID)
    requires t !in ids
    ensures Removed(ids + [t], t) == ids
  {
    if ids == [] {
      assert [t][1..] == [];
    } else {
      assert (ids + [t])[1..] == ids[1..] + [t];
      RemoveLast(ids[1..], t);
    }
  }

  // ---------- the tree below a session ----------

  function Children(r: Relations, s: SessionID): set<SessionID> {
    set t | t in TasksOf(r.parentTasks, s) && t in r.coords :: r.coords[t].child
  }

  predicate IsPath(r: Relations, path: seq<SessionID>) {
    path != [] && forall i :: 0 <= i < |path| - 1 ==> path[i+1] in Children(r, path[i])
  }

  ghost predicate Below(r: Relations, root: SessionID, s: SessionID) {
    exists path :: IsPath(r, path) && path[0] == root && path[|path|-1] == s
  }

  /** `tree` holds exactly the root and everything delegated below it. */
  ghost predicate IsTree(r: Relations, root: SessionID, tree: set<SessionID>) {
    && root in tree
    && (forall s :: s in tree ==> Children(r, s) <= tree)
    && (forall s :: s in tree ==> Below(r, root, s))
  }

  ghost predicate Under(r: Relations, roots: set<SessionID>, s: SessionID) {
    exists root :: root in roots && Below(r, root, s)
  }

  /** The same for several roots at once. */
  ghost predicate IsForest(r: Relations, roots: set<SessionID>, forest: set<SessionID>) {
    && roots <= forest
    && (forall s :: s in forest ==> Children(r, s) <= forest)
    && (forall s :: s in forest ==> Under(r, roots, s))
  }

  lemma OneRootForest(r: Relations, root: SessionID, tree: set<SessionID>)
    requires IsForest(r, {root}, tree)
    ensures IsTree(r, root, tree)
  {
    hide Below, Children;
    forall s | s in tree
      ensures Below(r, root, s)
    {
      assert Under(r, {root}, s);
    }
  }

  lemma RootBelow(r: Relations, root: SessionID)
    ensures Below(r, root, root)
  {
    assert IsPath(r, [root]);
  }

  lemma ChildBelow(r: Relations, root: SessionID, s: SessionID, c: SessionID)
    requires Below(r, root, s) && c in Children(r, s)
    ensures Below(r, root, c)
  {
    var path :| IsPath(r, path) && path[0] == root && path[|path|-1] == s;
    var longer := path + [c];
    forall i | 0 <= i < |longer| - 1
      ensures longer[i+1] in Children(r, longer[i])
    {
      if i < |path| - 1 { assert path[i+1] in Children(r, path[i]); }
    }
    assert IsPath(r, longer);
  }

  // ---------- what a stop does ----------

  /** What the stop reads and writes: the relations, the families, and which run is active where;
      `canceled` are the runs `StopRun` was called on. */
  datatype Service = Service(relations: Relations, families: map<SessionID, Family>, active: map<SessionID, RunID>, canceled: set<RunID>)

  function BumpedFamily(s: Service, id: SessionID): Family {
    var f := FamilyOf(s.families, id);
    Family(f.generation + 1, if id in s.active then s.active[id] else f.stoppedRunID)
  }

  function Flagged(c: Coord): Coord {
    c.(stopRequested := true, stopGeneration := c.stopGeneration + 1)
  }

  function FlaggedTasks(coords: map<TaskID, Coord>, tree: set<SessionID>): map<TaskID, Coord> {
    map t | t in coords :: if coords[t].parent in tree then Flagged(coords[t]) else coords[t]
  }

  function ActiveIn(active: map<SessionID, RunID>, tree: set<SessionID>): set<RunID> {
    set s | s in active && s in tree :: active[s]
  }

  /** Every session of the tree gets a new generation, its active run is stopped, and all its tasks
      are marked. */
  function StoppedTree(s: Service, tree: set<SessionID>): Service {
    s.(families := map id | id in s.families.Keys + tree :: if id in tree then BumpedFamily(s, id) else s.families[id],
       relations := s.relations.(coords := FlaggedTasks(s.relations.coords, tree)),
       canceled := s.canceled + ActiveIn(s.active, tree))
  }

  class Tasks {
    var childSessions: map<SessionID, TaskID>
    var parentTasks: map<SessionID, seq<TaskID>>
    var coords: map<TaskID, Coord>
    var families: map<SessionID, Family>
    var active: map<SessionID, RunID>
    var canceled: set<RunID>
    var deletedSessions: set<SessionID>
    var closed: bool
    /** Tasks whose own lock is held by an operation. */
    var busy: set<TaskID>

    function Rel(): Relations
      reads this
    {
      Relations(childSessions, parentTasks, coords)
    }

    ghost function View(): Service
      reads this
    {
      Service(Rel(), families, active, canceled)
    }

    constructor ()
      ensures Agree(Rel()) && View() == Service(Relations(map[], map[], map[]), map[], map[], {})
      ensures deletedSessions == {} && !closed && busy == {}
    {
      childSessions, parentTasks, coords := map[], map[], map[];
      families, active, canceled, deletedSessions, closed, busy := map[], map[], {}, {}, false, {};
    }

    /** `admit`: the permit holds at this moment, for the parent's active run and in its generation; without
        one, either the service or the session is closed, or the run is not the active one, or it was stopped. */
    method Admit(parent: SessionID, runID: RunID) returns (r: Result<Permit, Refusal>)
      ensures r == Admission(this.View(), deletedSessions, closed, parent, runID)
      ensures r.Ok? ==> r.value.parent == parent && r.value.runID == runID && PermitHolds(View(), deletedSessions, closed, r.value)
                        && parent in active && active[parent] == runID
      ensures r.Err? ==> parent == "" || runID == "" || parent !in active || active[parent] != runID
                         || forall p: Permit :: p.parent == parent && p.runID == runID ==> !PermitHolds(View(), deletedSessions, closed, p)
    {
      if closed { return Err(Closed); }
      if parent == "" || runID == "" { return Err(ParentRequired); }
      if parent in deletedSessions { return Err(TaskStopped); }
      var family := FamilyOf(families, parent);
      if family.stoppedRunID == runID { return Err(FamilyStopped); }
      if parent !in active || active[parent] != runID { return Err(ParentRequired); }
      return Ok(Permit(parent, runID, family.generation));
    }

    /** Every listed task is marked once. */
    method FlagTasks(list: seq<TaskID>)
      requires NoDuplicates(list)
      modifies this`coords
      ensures coords.Keys == old(coords).Keys
      ensures forall t :: t in coords ==> coords[t] == if t in list then Flagged(old(coords)[t]) else old(coords)[t]
    {
      ghost var was := coords;
      hide Flagged;
      for k := 0 to |list|
        invariant coords.Keys == was.Keys
        invariant forall t :: t in coords ==> coords[t] == if t in list[..k] then Flagged(was[t]) else was[t]
      {
        var t := list[k];
        assert list[..k+1] == list[..k] + [t];
        assert t !in list[..k];
        if t in coords {
          coords := coords[t := Flagged(coords[t])];
        }
      }
      assert list[..|list|] == list;
    }

    /** One session of the walk: its family and the tasks listed under it. */
    method StopOne(id: SessionID, ghost before: Service, ghost seen: set<SessionID>)
      requires Agree(before.relations) && View() == StoppedTree(before, seen) && id !in seen
      modifies this
      ensures View() == StoppedTree(before, seen + {id})
      ensures deletedSessions == old(deletedSessions) && closed == old(closed)
    {
      FamilyUntouched(before, seen, id);
      ghost var was := coords;
      var family := FamilyOf(families, id);
      var bumped := Family(family.generation + 1, family.stoppedRunID);
      if id in active {
        bumped := bumped.(stoppedRunID := active[id]);
        canceled := canceled + {active[id]};
      }
      families := families[id := bumped];
      var list := TasksOf(parentTasks, id);
      assert NoDuplicates(list) by { if id in before.relations.parentTasks { assert ListSound(before.relations, id); } }
      hide Agree, FlaggedTasks, ActiveIn, TasksOf, Flagged;
      FlagTasks(list);
      OneMore(before, seen, id, bumped, was, coords, list);
    }

    /** `stopSessionTreeLocked`: breadth first from the root. */
    method StopSessionTree(root: SessionID)
      requires Agree(Rel())
      modifies this
      ensures exists tree :: IsTree(old(Rel()), root, tree) && View() == StoppedTree(old(View()), tree)
      ensures deletedSessions == old(deletedSessions) && closed == old(closed)
    {
      ghost var before := View();
      ghost var r := before.relations;
      var queue := [root];
      var seen: set<SessionID> := {};
      NothingStopped(before);
      WalkBegins(r, {root}, queue);
      assert r == old(Rel());
      hide *;
      while |queue| > 0
        invariant View() == StoppedTree(before, seen) && deletedSessions == old(deletedSessions) && closed == old(closed)
        invariant Walk(r, {root}, seen, queue)
        decreases Universe(r, {root}) - seen, |queue|
      {
        var sessionID := queue[0];
        var waiting := queue[1..];
        WalkMeasure(r, {root}, seen, queue);
        if sessionID in seen {
          WalkSkips(r, {root}, seen, queue);
          queue := waiting;
        } else {
          StopOne(sessionID, before, seen);
          var children := ChildList(sessionID, before, seen + {sessionID});
          WalkVisits(r, {root}, seen, queue, children);
          seen := seen + {sessionID};
          queue := waiting + children;
        }
      }
      WalkEnds(r, {root}, seen);
      OneRootForest(r, root, seen);
    }

    /** `forgetTaskLocked`: the task leaves all three indexes. */
    method Forget(t: TaskID, parent: SessionID, child: SessionID)
      modifies this`childSessions, this`parentTasks, this`coords
      ensures Rel() == Forgotten(old(Rel()), t, parent, child)
    {
      childSessions := childSessions - {child};
      coords := coords - {t};
      var left := RemoveTask(TasksOf(parentTasks, parent), t);
      if |left| == 0 {
        parentTasks := parentTasks - {parent};
        return;
      }
      parentTasks := parentTasks[parent := left];
    }

    /** `sessionDepthLocked`: the number of parents above a session, or an error for a broken chain. */
    method SessionDepth(session: SessionID) returns (r: Result<nat, Refusal>)
      ensures r.Ok? ==> HasDepth(Rel(), session, r.value)
      ensures r.Err? ==> r.error == InvalidTaskData && forall d: nat :: !HasDepth(Rel(), session, d)
    {
      var sessionID, depth := session, 0;
      ghost var path := [session];
      var seen: set<SessionID> := {};
      while sessionID in childSessions
        invariant |path| == depth + 1 && path[depth] == sessionID && path[0] == session
        invariant ParentChain(Rel(), path)
        invariant forall s :: s in seen <==> exists i :: 0 <= i < depth && path[i] == s
        invariant seen <= childSessions.Keys
        decreases childSessions.Keys - seen
      {
        if sessionID in seen {
          ghost var i :| 0 <= i < depth && path[i] == sessionID;
          CycleHasNoDepth(Rel(), path, i);
          return Err(InvalidTaskData);
        }
        seen := seen + {sessionID};
        var taskID := childSessions[sessionID];
        if taskID !in coords {
          BrokenHasNoDepth(Rel(), path);
          return Err(InvalidTaskData);
        }
        ghost var was := path;
        sessionID := coords[taskID].parent;
        path := path + [sessionID];
        depth := depth + 1;
        assert forall i :: 0 <= i < depth ==> path[i] == was[i];
      }
      ChainDepth(Rel(), path, 0);
      return Ok(depth);
    }

    /** The walk of `ReserveDeletion`: it stops at the first session that is busy or being deleted. */
    method CollectDeletion(roots: seq<SessionID>) returns (r: Result<(set<SessionID>, seq<TaskID>), Refusal>)
      requires Agree(Rel())
      ensures r.Ok? ==> Collected(Rel(), Elements(roots), r.value.0, r.value.1)
                        && (forall s :: s in r.value.0 ==> s !in active && s !in deletedSessions)
      ensures r.Err? ==> exists s :: Under(Rel(), Elements(roots), s) && (s in active || s in deletedSessions)
    {
      ghost var rel, rootSet := Rel(), Elements(roots);
      var queue := roots;
      var seen: set<SessionID> := {};
      var tasks: seq<TaskID> := [];
      WalkBegins(rel, rootSet, queue);
      while |queue| > 0
        invariant Walk(rel, rootSet, seen, queue) && TasksIn(rel, seen, tasks)
        invariant forall s :: s in seen ==> s !in active && s !in deletedSessions
        decreases Universe(rel, rootSet) - seen, |queue|
      {
        hide Walk, TasksIn, Under, Agree;
        var id := queue[0];
        var waiting := queue[1..];
        WalkMeasure(rel, rootSet, seen, queue);
        if id in seen {
          WalkSkips(rel, rootSet, seen, queue);
          queue := waiting;
        } else if id in deletedSessions || id in active {
          WalkHead(rel, rootSet, seen, queue);
          return Err(TaskActive);
        } else {
          var list := TasksOf(parentTasks, id);
          var children := ChildrenOf(list, id);
          WalkVisits(rel, rootSet, seen, queue, children);
          MoreTasksIn(rel, seen, tasks, id);
          seen := seen + {id};
          tasks := tasks + list;
          queue := waiting + children;
        }
      }
      WalkEnds(rel, rootSet, seen);
      return Ok((seen, tasks));
    }

    method ChildrenOf(list: seq<TaskID>, id: SessionID) returns (children: seq<SessionID>)
      requires Agree(Rel()) && list == TasksOf(parentTasks, id)
      ensures forall c :: c in children <==> c in Children(Rel(), id)
    {
      children := [];
      for k := 0 to |list|
        invariant forall c :: c in children <==> exists t :: t in list[..k] && t in coords && coords[t].child == c
      {
        assert list[..k+1] == list[..k] + [list[k]];
        assert id in parentTasks && ListSound(Rel(), id) && list[k] in list;
        children := children + [coords[list[k]].child];
      }
      assert list[..|list|] == list;
    }

    /** The locks of all collected tasks, or none of them. */
    method AllFree(tasks: seq<TaskID>) returns (free: bool)
      ensures free <==> forall t :: t in tasks ==> t !in busy
    {
      for k := 0 to |tasks|
        invariant forall i :: 0 <= i < k ==> tasks[i] !in busy
      {
        if tasks[k] in busy { return false; }
      }
      return true;
    }

    method ForgetAll(tasks: seq<TaskID>)
      requires Agree(Rel()) && NoDuplicates(tasks) && forall t :: t in tasks ==> t in coords
      modifies this`childSessions, this`parentTasks, this`coords
      ensures Agree(Rel()) && Rel() == Pruned(old(Rel()), Elements(tasks))
    {
      ghost var before := Rel();
      PruneNothing(before);
      assert Elements(tasks[..0]) == {};
      hide Agree, Pruned, Forgotten, Elements;
      for k := 0 to |tasks|
        invariant Agree(Rel()) && Rel() == Pruned(before, Elements(tasks[..k]))
      {
        PruneStep(before, tasks, k);
        Forget(tasks[k], coords[tasks[k]].parent, coords[tasks[k]].child);
      }
      assert tasks[..|tasks|] == tasks;
    }

    /** `ReserveDeletion`: either nothing changes, or exactly the roots and everything below them are
        frozen and their tasks leave all three indexes.  `persist` says whether the list was saved. */
    method ReserveDeletion(roots: seq<SessionID>, persist: (seq<SessionID>, seq<TaskID>) -> bool)
      returns (r: Result<(seq<SessionID>, seq<TaskID>), Refusal>)
      requires Agree(Rel())
      modifies this
      ensures Agree(Rel()) && active == old(active) && canceled == old(canceled) && closed == old(closed) && busy == old(busy)
      ensures r.Err? ==> View() == old(View()) && deletedSessions == old(deletedSessions)
      ensures r.Ok? ==>
                exists forest, tasks :: Frozen(old(Rel()), Elements(roots), r.value.0, r.value.1, forest, tasks)
                  && !old(closed) && persist(r.value.0, r.value.1)
                  && (forall s :: s in forest ==> s !in active && s !in old(deletedSessions)) && tasks !! busy
                  && deletedSessions == old(deletedSessions) + forest && families == old(families) - forest
                  && Rel() == Pruned(old(Rel()), tasks)
    {
      hide Agree, Pruned, IsForest, Frozen, Under, Children, StrictlySorted;
      if closed { return Err(Closed); }
      var collected := CollectDeletion(roots);
      if collected.Err? { return Err(collected.error); }
      var (seen, tasks) := collected.value;
      var free := AllFree(tasks);
      if !free { return Err(TaskActive); }
      ghost var taskSet := Elements(tasks);
      var ids := SortStrings(seen);
      var sorted := SortStrings(Elements(tasks));
      if !persist(ids, sorted) { return Err(PersistFailed); }
      CollectedIsFrozen(Rel(), Elements(roots), seen, tasks, ids, sorted);
      assert taskSet !! busy;
      deletedSessions := deletedSessions + seen;
      families := families - seen;
      ForgetAll(tasks);
      return Ok((ids, sorted));
    }

    method ChildList(id: SessionID, ghost before: Service, ghost seen: set<SessionID>) returns (children: seq<SessionID>)
      requires Agree(before.relations) && View() == StoppedTree(before, seen)
      ensures forall c :: c in children <==> c in Children(before.relations, id)
    {
      children := [];
      var list := TasksOf(parentTasks, id);
      for k := 0 to |list|
        invariant forall c :: c in children <==> exists t :: t in list[..k] && t in before.relations.coords && before.relations.coords[t].child == c
      {
        assert list[..k+1] == list[..k] + [list[k]];
        if list[k] in coords {
          children := children + [coords[list[k]].child];
        }
      }
      assert list[..|list|] == list;
    }
  }

  lemma FamilyUntouched(before: Service, seen: set<SessionID>, id: SessionID)
    requires id !in seen
    ensures FamilyOf(StoppedTree(before, seen).families, id) == FamilyOf(before.families, id)
    ensures StoppedTree(before, seen).active == before.active
    ensures ActiveIn(before.active, {id}) == (if id in before.active then {before.active[id]} else {})
  {
    hide FlaggedTasks;
  }

  // ---------- depth ----------

  /** `d` parents stand above the session. */
  predicate HasDepth(r: Relations, s: SessionID, d: nat)
    decreases d
  {
    if s !in r.childSessions then d == 0
    else d > 0 && r.childSessions[s] in r.coords && HasDepth(r, r.coords[r.childSessions[s]].parent, d - 1)
  }

  predicate ParentChain(r: Relations, path: seq<SessionID>) {
    forall i :: 0 <= i < |path| - 1 ==>
      path[i] in r.childSessions && r.childSessions[path[i]] in r.coords && path[i+1] == r.coords[r.childSessions[path[i]]].parent
  }

  lemma {:induction false} ChainDepth(r: Relations, path: seq<SessionID>, i: nat)
    requires ParentChain(r, path) && i < |path| && path[|path|-1] !in r.childSessions
    ensures HasDepth(r, path[i], |path| - 1 - i)
    decreases |path| - i
  {
    if i < |path| - 1 { ChainDepth(r, path, i + 1); }
  }

  lemma {:induction false} DepthUnique(r: Relations, s: SessionID, a: nat, b: nat)
    requires HasDepth(r, s, a) && HasDepth(r, s, b)
    ensures a == b
    decreases a
  {
    if s in r.childSessions { DepthUnique(r, r.coords[r.childSessions[s]].parent, a - 1, b - 1); }
  }

  lemma {:induction false} DepthAlong(r: Relations, path: seq<SessionID>, d: nat, i: nat)
    requires ParentChain(r, path) && path != [] && HasDepth(r, path[0], d) && i < |path|
    ensures i <= d && HasDepth(r, path[i], d - i)
  {
    if i > 0 { DepthAlong(r, path, d, i - 1); }
  }

  lemma CycleHasNoDepth(r: Relations, path: seq<SessionID>, i: nat)
    requires ParentChain(r, path) && i < |path| - 1 && path[i] == path[|path|-1]
    ensures forall d: nat :: !HasDepth(r, path[0], d)
  {
    forall d: nat | HasDepth(r, path[0], d)
      ensures false
    {
      DepthAlong(r, path, d, i);
      DepthAlong(r, path, d, |path| - 1);
      DepthUnique(r, path[i], d - i, d - (|path| - 1));
    }
  }

  lemma BrokenHasNoDepth(r: Relations, path: seq<SessionID>)
    requires ParentChain(r, path) && path != [] && path[|path|-1] in r.childSessions && r.childSessions[path[|path|-1]] !in r.coords
    ensures forall d: nat :: !HasDepth(r, path[0], d)
  {
    forall d: nat | HasDepth(r, path[0], d)
      ensures false
    {
      DepthAlong(r, path, d, |path| - 1);
    }
  }

  const maxDelegationDepth: nat := 2

  /** No child session lies deeper than the limit. */
  ghost predicate DepthLimited(r: Relations) {
    forall c :: c in r.childSessions ==> exists d: nat :: d <= maxDelegationDepth && HasDepth(r, c, d)
  }

  lemma {:induction false} PublishKeepsDepth(r: Relations, t: TaskID, c: Coord, s: SessionID, d: nat)
    requires t !in r.coords && c.child !in r.childSessions && HasDepth(r, s, d) && s != c.child
    requires forall x :: x in r.coords ==> r.coords[x].parent != c.child
    ensures HasDepth(Published(r, t, c), s, d)
    decreases d
  {
    if s in r.childSessions {
      PublishKeepsDepth(r, t, c, r.coords[r.childSessions[s]].parent, d - 1);
    }
  }

  // ---------- deletion ----------

  method RemoveTask(ids: seq<TaskID>, t: TaskID) returns (left: seq<TaskID>)
    ensures left == Removed(ids, t)
  {
    assert ids[0..] == ids;
    for index := 0 to |ids|
      invariant Removed(ids, t) == ids[..index] + Removed(ids[index..], t)
    {
      assert ids[index..][0] == ids[index] && ids[index..][1..] == ids[index+1..];
      if ids[index] == t {
        return ids[..index] + ids[index+1..];
      }
      assert ids[..index+1] == ids[..index] + [ids[index]];
    }
    assert ids[..|ids|] == ids;
    return ids;
  }

  function Kept(ids: seq<TaskID>, gone: set<TaskID>): seq<TaskID> {
    if ids == [] then [] else (if ids[0] in gone then [] else [ids[0]]) + Kept(ids[1..], gone)
  }

  /** The relations without the tasks in `gone`. */
  function Pruned(r: Relations, gone: set<TaskID>): Relations {
    Relations(map c | c in r.childSessions && r.childSessions[c] !in gone :: r.childSessions[c],
              map p | p in r.parentTasks && Kept(r.parentTasks[p], gone) != [] :: Kept(r.parentTasks[p], gone),
              map t | t in r.coords && t !in gone :: r.coords[t])
  }

  lemma {:induction false} KeptAll(ids: seq<TaskID>)
    ensures Kept(ids, {}) == ids
  {
    if ids != [] { KeptAll(ids[1..]); }
  }

  lemma PruneNothing(r: Relations)
    requires Agree(r)
    ensures Pruned(r, {}) == r
  {
    forall p | p in r.parentTasks
      ensures Kept(r.parentTasks[p], {}) == r.parentTasks[p] && r.parentTasks[p] != []
    {
      KeptAll(r.parentTasks[p]);
      assert ListSound(r, p);
    }
    assert Pruned(r, {}).coords == r.coords && Pruned(r, {}).childSessions == r.childSessions;
  }

  lemma {:induction false} KeptMore(ids: seq<TaskID>, gone: set<TaskID>, t: TaskID)
    requires NoDuplicates(ids) && t !in gone
    ensures Kept(ids, gone + {t}) == Removed(Kept(ids, gone), t)
    ensures t !in ids ==> Kept(ids, gone + {t}) == Kept(ids, gone)
  {
    if ids != [] {
      var rest := ids[1..];
      assert forall i :: 0 <= i < |rest| ==> rest[i] == ids[i+1] && rest[i] != ids[0];
      assert ids == [ids[0]] + rest;
      KeptMore(rest, gone, t);
      var kept := Kept(rest, gone);
      assert ([ids[0]] + kept)[1..] == kept;
      assert [] + kept == kept && [] + Kept(rest, gone + {t}) == Kept(rest, gone + {t});
      if ids[0] == t {
        assert t !in rest;
        assert Kept(ids, gone) == [t] + kept && Kept(ids, gone + {t}) == kept;
      } else if ids[0] in gone {
        assert Kept(ids, gone) == kept && Kept(ids, gone + {t}) == Kept(rest, gone + {t});
      } else {
        assert Kept(ids, gone) == [ids[0]] + kept && Kept(ids, gone + {t}) == [ids[0]] + Kept(rest, gone + {t});
      }
    }
  }

  lemma KeptElsewhere(r: Relations, gone: set<TaskID>, t: TaskID, p: SessionID)
    requires Agree(r) && t in r.coords && t !in gone && p in r.parentTasks
    ensures p == r.coords[t].parent ==> Kept(r.parentTasks[p], gone + {t}) == Removed(Kept(r.parentTasks[p], gone), t)
    ensures p != r.coords[t].parent ==> Kept(r.parentTasks[p], gone + {t}) == Kept(r.parentTasks[p], gone)
  {
    assert ListSound(r, p);
    KeptMore(r.parentTasks[p], gone, t);
  }

  /** What forgetting and pruning say about one parent. */
  lemma PruneParent(r: Relations, gone: set<TaskID>, t: TaskID, p: SessionID)
    requires Agree(r) && t in r.coords && t !in gone
    ensures var a := Forgotten(Pruned(r, gone), t, r.coords[t].parent, r.coords[t].child).parentTasks;
            var b := Pruned(r, gone + {t}).parentTasks;
            (p in a <==> p in b) && (p in a ==> a[p] == b[p])
  {
    if p in r.parentTasks {
      KeptElsewhere(r, gone, t, p);
    } else {
      assert TaskIndexed(r, t);
    }
    hide Agree, Kept, Removed;
    RemovedNothing(t);
  }

  lemma PruneList(r: Relations, gone: set<TaskID>, t: TaskID)
    requires Agree(r) && t in r.coords && t !in gone
    ensures Forgotten(Pruned(r, gone), t, r.coords[t].parent, r.coords[t].child).parentTasks == Pruned(r, gone + {t}).parentTasks
  {
    hide *;
    var a := Forgotten(Pruned(r, gone), t, r.coords[t].parent, r.coords[t].child).parentTasks;
    var b := Pruned(r, gone + {t}).parentTasks;
    forall p
      ensures (p in a <==> p in b) && (p in a ==> a[p] == b[p])
    {
      PruneParent(r, gone, t, p);
    }
    assert a == b;
  }

  lemma RemovedNothing(t: TaskID)
    ensures Removed([], t) == []
  {}

  lemma PruneCoords(r: Relations, gone: set<TaskID>, t: TaskID)
    ensures Pruned(r, gone).coords - {t} == Pruned(r, gone + {t}).coords
  {
    hide Kept;
  }

  lemma PruneChildren(r: Relations, gone: set<TaskID>, t: TaskID)
    requires Agree(r) && t in r.coords && t !in gone
    ensures Pruned(r, gone).childSessions - {r.coords[t].child} == Pruned(r, gone + {t}).childSessions
  {
    assert TaskIndexed(r, t);
    assert forall c :: c in r.childSessions ==> (r.childSessions[c] == t <==> c == r.coords[t].child);
    hide Agree, Kept, TaskIndexed;
    forall c
      ensures c in Pruned(r, gone).childSessions - {r.coords[t].child} <==> c in Pruned(r, gone + {t}).childSessions
    {}
  }

  /** Forgetting one more task prunes one more. */
  lemma PruneOne(r: Relations, gone: set<TaskID>, t: TaskID)
    requires Agree(r) && t in r.coords && t !in gone
    ensures Forgotten(Pruned(r, gone), t, r.coords[t].parent, r.coords[t].child) == Pruned(r, gone + {t})
  {
    hide Agree, Pruned;
    PruneList(r, gone, t);
    PruneCoords(r, gone, t);
    PruneChildren(r, gone, t);
  }

  lemma PrunedCoord(r: Relations, gone: set<TaskID>, t: TaskID)
    requires t in r.coords && t !in gone
    ensures t in Pruned(r, gone).coords && Pruned(r, gone).coords[t] == r.coords[t]
  {}

  /** Pruning leaves the indexes in agreement. */
  lemma {:induction false} PruneAgrees(r: Relations, gone: set<TaskID>)
    requires Agree(r) && gone <= r.coords.Keys
    ensures Agree(Pruned(r, gone))
    decreases gone
  {
    hide Agree, Pruned, Forgotten;
    if gone == {} {
      PruneNothing(r);
    } else {
      var t :| t in gone;
      var rest := gone - {t};
      assert rest + {t} == gone;
      PruneAgrees(r, rest);
      PrunedCoord(r, rest, t);
      PruneOne(r, rest, t);
      ForgetAgrees(Pruned(r, rest), t);
    }
  }

  /** The tasks of the sessions of a forest. */
  function TasksUnder(r: Relations, forest: set<SessionID>): set<TaskID> {
    set t | t in r.coords && r.coords[t].parent in forest
  }

  lemma PruneStep(r: Relations, tasks: seq<TaskID>, k: nat)
    requires Agree(r) && NoDuplicates(tasks) && k < |tasks| && forall t :: t in tasks ==> t in r.coords
    requires Agree(Pruned(r, Elements(tasks[..k])))
    ensures var t, now, next := tasks[k], Pruned(r, Elements(tasks[..k])), Pruned(r, Elements(tasks[..k+1]));
            && t in now.coords && Agree(next)
            && Forgotten(now, t, now.coords[t].parent, now.coords[t].child) == next
  {
    hide Agree, Pruned, Forgotten;
    var t := tasks[k];
    assert tasks[..k+1] == tasks[..k] + [t] && t in tasks && t !in tasks[..k];
    assert Elements(tasks[..k+1]) == Elements(tasks[..k]) + {t};
    PrunedCoord(r, Elements(tasks[..k]), t);
    PruneOne(r, Elements(tasks[..k]), t);
    ForgetAgrees(Pruned(r, Elements(tasks[..k])), t);
  }

  /** `tasks` lists every task of the visited sessions once. */
  ghost predicate TasksIn(r: Relations, seen: set<SessionID>, tasks: seq<TaskID>) {
    NoDuplicates(tasks) && forall t :: t in r.coords || t in tasks ==> (t in tasks <==> t in r.coords && r.coords[t].parent in seen)
  }

  lemma MoreTasksIn(r: Relations, seen: set<SessionID>, tasks: seq<TaskID>, id: SessionID)
    requires Agree(r) && TasksIn(r, seen, tasks) && id !in seen
    ensures TasksIn(r, seen + {id}, tasks + TasksOf(r.parentTasks, id))
  {
    var list := TasksOf(r.parentTasks, id);
    var all := tasks + list;
    assert id in r.parentTasks ==> ListSound(r, id);
    forall t | t in r.coords || t in all
      ensures t in all <==> t in r.coords && r.coords[t].parent in seen + {id}
    {
      if t in r.coords { assert TaskIndexed(r, t); }
    }
    forall i, j | 0 <= i < j < |all|
      ensures all[i] != all[j]
    {
      if i < |tasks| && j >= |tasks| {
        assert all[i] == tasks[i] && tasks[i] in tasks && all[j] == list[j - |tasks|] && list[j - |tasks|] in list;
      }
    }
  }

  lemma WalkHead(r: Relations, roots: set<SessionID>, seen: set<SessionID>, queue: seq<SessionID>)
    requires Walk(r, roots, seen, queue) && queue != []
    ensures Under(r, roots, queue[0])
  {
    assert queue[0] in queue;
    hide Under;
  }

  ghost predicate Collected(r: Relations, roots: set<SessionID>, sessions: set<SessionID>, tasks: seq<TaskID>) {
    IsForest(r, roots, sessions) && TasksIn(r, sessions, tasks)
  }

  /** The sorted lists name exactly the forest below the roots and the tasks of its sessions. */
  ghost predicate Frozen(r: Relations, roots: set<SessionID>, ids: seq<SessionID>, tasks: seq<TaskID>,
                         forest: set<SessionID>, gone: set<TaskID>) {
    && IsForest(r, roots, forest)
    && StrictlySorted(ids) && (forall s :: s in ids <==> s in forest)
    && StrictlySorted(tasks) && (forall t :: t in tasks <==> t in gone)
    && forall t :: t in gone <==> t in r.coords && r.coords[t].parent in forest
  }

  lemma CollectedIsFrozen(r: Relations, roots: set<SessionID>, sessions: set<SessionID>, tasks: seq<TaskID>,
                          ids: seq<SessionID>, sorted: seq<TaskID>)
    requires Collected(r, roots, sessions, tasks)
    requires StrictlySorted(ids) && forall s :: s in ids <==> s in sessions
    requires StrictlySorted(sorted) && forall t :: t in sorted <==> t in Elements(tasks)
    ensures Frozen(r, roots, ids, sorted, sessions, Elements(tasks))
  {
    hide IsForest, StrictlySorted;
  }

  function Universe(r: Relations, roots: set<SessionID>): set<SessionID> {
    roots + r.childSessions.Keys
  }

  /** The walk's invariant: what has been visited is below the roots, and whatever hangs below a
      visited session has been visited or waits in the queue. */
  ghost predicate Walk(r: Relations, roots: set<SessionID>, seen: set<SessionID>, queue: seq<SessionID>) {
    && seen <= Universe(r, roots)
    && (forall s :: s in queue ==> s in Universe(r, roots) && Under(r, roots, s))
    && (forall s :: s in seen ==> Under(r, roots, s))
    && (forall s :: s in roots ==> s in seen || s in queue)
    && (forall s, c :: s in seen && c in Children(r, s) ==> c in seen || c in queue)
  }

  lemma WalkBegins(r: Relations, roots: set<SessionID>, queue: seq<SessionID>)
    requires forall s :: s in queue <==> s in roots
    ensures Walk(r, roots, {}, queue)
  {
    forall s | s in roots
      ensures Under(r, roots, s)
    {
      RootBelow(r, s);
    }
  }

  lemma WalkMeasure(r: Relations, roots: set<SessionID>, seen: set<SessionID>, queue: seq<SessionID>)
    requires Walk(r, roots, seen, queue) && queue != []
    ensures queue[0] in Universe(r, roots) && |queue[1..]| < |queue|
    ensures queue[0] !in seen ==> Universe(r, roots) - (seen + {queue[0]}) < Universe(r, roots) - seen
  {
    assert queue[0] in queue;
    hide Under;
    if queue[0] !in seen { assert queue[0] in Universe(r, roots) - seen; }
  }

  lemma WalkSkips(r: Relations, roots: set<SessionID>, seen: set<SessionID>, queue: seq<SessionID>)
    requires Walk(r, roots, seen, queue) && queue != [] && queue[0] in seen
    ensures Walk(r, roots, seen, queue[1..])
  {
    assert queue == [queue[0]] + queue[1..];
    hide Under, Children;
  }

  lemma WalkVisits(r: Relations, roots: set<SessionID>, seen: set<SessionID>, queue: seq<SessionID>, children: seq<SessionID>)
    requires Agree(r) && Walk(r, roots, seen, queue) && queue != [] && forall c :: c in children <==> c in Children(r, queue[0])
    ensures Walk(r, roots, seen + {queue[0]}, queue[1..] + children)
  {
    var id, rest := queue[0], queue[1..];
    assert queue == [id] + rest && id in queue;
    forall s | s in children
      ensures s in Universe(r, roots) && Under(r, roots, s)
    {
      UnderChild(r, roots, id, s);
      ChildIndexed(r, id, s);
    }
    hide Under, Children, Agree;
  }

  lemma UnderChild(r: Relations, roots: set<SessionID>, s: SessionID, c: SessionID)
    requires Under(r, roots, s) && c in Children(r, s)
    ensures Under(r, roots, c)
  {
    var root :| root in roots && Below(r, root, s);
    ChildBelow(r, root, s, c);
  }

  lemma WalkEnds(r: Relations, roots: set<SessionID>, seen: set<SessionID>)
    requires Walk(r, roots, seen, [])
    ensures IsForest(r, roots, seen)
  {
    hide Under, Children;
  }

  /** The answer of `admit`. */
  function Admission(s: Service, deleted: set<SessionID>, closed: bool, parent: SessionID, runID: RunID): Result<Permit, Refusal> {
    if closed then Err(Closed)
    else if parent == "" || runID == "" then Err(ParentRequired)
    else if parent in deleted then Err(TaskStopped)
    else if FamilyOf(s.families, parent).stoppedRunID == runID then Err(FamilyStopped)
    else if parent !in s.active || s.active[parent] != runID then Err(ParentRequired)
    else Ok(Permit(parent, runID, FamilyOf(s.families, parent).generation))
  }

  /** The answer of `admissionErrorLocked`: the permit is still good for starting a child run. */
  predicate PermitHolds(s: Service, deleted: set<SessionID>, closed: bool, p: Permit) {
    var family := FamilyOf(s.families, p.parent);
    !closed && p.parent !in deleted && family.generation == p.generation && !(p.runID != "" && family.stoppedRunID == p.runID)
  }

  /** A permit holds from the moment it is given until a stop reaches its session: stopping a tree takes it
      away exactly when the session lies in the tree, and then the same run is never admitted again, while a
      later run of the session is, under a new generation. */
  lemma StopEndsPermit(s: Service, deleted: set<SessionID>, closed: bool, parent: SessionID, runID: RunID, tree: set<SessionID>, later: RunID)
    requires Admission(s, deleted, closed, parent, runID).Ok? && later != "" && later != runID
    ensures var p := Admission(s, deleted, closed, parent, runID).value;
            var after := StoppedTree(s, tree);
            var renewed := after.(active := after.active[parent := later]);
            && PermitHolds(s, deleted, closed, p)
            && (PermitHolds(after, deleted, closed, p) <==> parent !in tree)
            && (Admission(after, deleted, closed, parent, runID).Ok? <==> parent !in tree)
            && (parent in tree ==>
                  && Admission(renewed, deleted, closed, parent, later) == Ok(Permit(parent, later, p.generation + 1))
                  && !PermitHolds(renewed, deleted, closed, p))
  {
    hide FlaggedTasks, ActiveIn;
  }

  lemma NothingStopped(s: Service)
    ensures StoppedTree(s, {}) == s
  {
    assert FlaggedTasks(s.relations.coords, {}) == s.relations.coords;
    assert ActiveIn(s.active, {}) == {};
  }

  lemma ChildIndexed(r: Relations, s: SessionID, c: SessionID)
    requires Agree(r) && c in Children(r, s)
    ensures c in r.childSessions
  {
    var t :| t in TasksOf(r.parentTasks, s) && t in r.coords && r.coords[t].child == c;
    assert TaskIndexed(r, t);
  }

  lemma OneMore(before: Service, seen: set<SessionID>, id: SessionID, bumped: Family, was: map<TaskID, Coord>, now: map<TaskID, Coord>, list: seq<TaskID>)
    requires Agree(before.relations) && id !in seen && bumped == BumpedFamily(before, id)
    requires was == FlaggedTasks(before.relations.coords, seen) && list == TasksOf(before.relations.parentTasks, id)
    requires now.Keys == was.Keys && forall t :: t in now ==> now[t] == if t in list then Flagged(was[t]) else was[t]
    ensures now == FlaggedTasks(before.relations.coords, seen + {id})
    ensures StoppedTree(before, seen).families[id := bumped] == StoppedTree(before, seen + {id}).families
    ensures StoppedTree(before, seen).canceled + ActiveIn(before.active, {id}) == StoppedTree(before, seen + {id}).canceled
  {
    MoreTasks(before.relations, seen, id, now, list);
    MoreFamilies(before, seen, id);
    MoreActive(before.active, seen, id);
    hide FlaggedTasks, ActiveIn, BumpedFamily;
  }

  lemma MoreTasks(r: Relations, seen: set<SessionID>, id: SessionID, now: map<TaskID, Coord>, list: seq<TaskID>)
    requires Agree(r) && id !in seen && list == TasksOf(r.parentTasks, id)
    requires now.Keys == r.coords.Keys
    requires forall t :: t in now ==> now[t] == if t in list then Flagged(FlaggedTasks(r.coords, seen)[t]) else FlaggedTasks(r.coords, seen)[t]
    ensures now == FlaggedTasks(r.coords, seen + {id})
  {
    forall t | t in now
      ensures t in list <==> r.coords[t].parent == id
    {
      assert TaskIndexed(r, t);
      if id in r.parentTasks { assert ListSound(r, id); }
    }
    hide Agree, TasksOf;
  }

  lemma MoreFamilies(before: Service, seen: set<SessionID>, id: SessionID)
    requires id !in seen
    ensures StoppedTree(before, seen).families[id := BumpedFamily(before, id)] == StoppedTree(before, seen + {id}).families
  {
    hide FlaggedTasks, ActiveIn, BumpedFamily;
  }

  lemma MoreActive(active: map<SessionID, RunID>, seen: set<SessionID>, id: SessionID)
    ensures ActiveIn(active, seen + {id}) == ActiveIn(active, seen) + ActiveIn(active, {id})
  {}
}
