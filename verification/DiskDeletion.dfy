/** Deletion on disk: the intent is written first, the clean-up can be cut off anywhere and is
    replayed from the intent (internal/conversations/deletion.go). */
module DiskDeletion {
  import opened Basics

  type Id = string
  type Name = string

  datatype Intent = Intent(version: int, workspace: string, hookWorkspace: string, sessionIDs: seq<Id>, taskIDs: seq<Id>)

  /** The files a deletion touches; a session is a directory of files. */
  datatype Disk = Disk(tasks: map<Id, string>, reading: map<Id, string>, sessions: map<Id, map<Name, string>>,
                       approvals: set<string>, hooks: set<string>, intents: map<Name, Intent>)

  // ---------- saving the intent ----------

  predicate ValidID(id: Id) {
    id != "" && id != "." && id != ".." && ':' !in id && '/' !in id && '\\' !in id
  }

  /** `validDeletion`. */
  predicate ValidIntent(i: Intent) {
    && i.version == 1 && i.sessionIDs != []
    && (i.workspace != "" ==> i.workspace[0] == '/')
    && (forall id :: id in i.sessionIDs ==> ValidID(id)) && (forall id :: id in i.taskIDs ==> ValidID(id))
  }

  /** How a write of the intent file can go; only the first two leave it certain whether the file is there. */
  datatype WriteResult = Written | NotThere | ThereAfterAll | Unreadable(present: bool)

  function Saved(d: Disk, name: Name, i: Intent, w: WriteResult): Disk {
    if w.Written? || w.ThereAfterAll? || (w.Unreadable? && w.present) then d.(intents := d.intents[name := i]) else d
  }

  /** `saveDeletion` reports `pending` whenever the intent may be on disk. */
  function SaveDeletion(d: Disk, name: Name, i: Intent, w: WriteResult): (Disk, bool, bool) {
    if !ValidIntent(i) then (d, false, false)
    else (Saved(d, name, i, w), !w.NotThere?, w.Written?)
  }

  /** When the caller is told that nothing is pending, the disk is untouched; otherwise the disk is
      untouched or holds the intent. */
  lemma NotPendingMeansUntouched(d: Disk, name: Name, i: Intent, w: WriteResult)
    requires name !in d.intents
    ensures var (after, pending, ok) := SaveDeletion(d, name, i, w);
            && (!pending ==> after == d)
            && (after == d || (after == d.(intents := d.intents[name := i]) && ValidIntent(i)))
            && (ok ==> name in after.intents)
  {}

  /** An intent of another version, for no session, for a relative workspace or with an ID that is no plain name
      never reaches the disk; any other one is there, and is said to be, once its write goes through. */
  lemma WhatIsSaved(d: Disk, name: Name, i: Intent, w: WriteResult)
    ensures i.version != 1 || i.sessionIDs == [] || (i.workspace != "" && i.workspace[0] != '/') ==>
              SaveDeletion(d, name, i, w) == (d, false, false)
    ensures forall id :: (id in i.sessionIDs || id in i.taskIDs) && (id in {"", ".", ".."} || '/' in id || '\\' in id || ':' in id) ==>
              SaveDeletion(d, name, i, w) == (d, false, false)
    ensures SaveDeletion(d, name, i, Written) != (d, false, false) ==>
              SaveDeletion(d, name, i, Written) == (d.(intents := d.intents[name := i]), true, true)
    ensures forall s :: s != "" && s !in {".", ".."} && '/' !in s && '\\' !in s && ':' !in s ==>
              SaveDeletion(d, name, Intent(1, "", "", [s], []), Written).2
  {}

  // ---------- the clean-up, one atomic operation after the other ----------

  datatype Op =
    | RemoveTask(id: Id)
    | RemoveReading(id: Id)
    | RemoveDir(id: Id)
    | ForgetApproval(workspace: string)
    | ForgetHook(workspace: string)
    | RemoveIntent(name: Name)

  function Perform(d: Disk, op: Op): Disk {
    match op
    case RemoveTask(id) => d.(tasks := d.tasks - {id})
    case RemoveReading(id) => d.(reading := d.reading - {id})
    case RemoveDir(id) => d.(sessions := d.sessions - {id})
    case ForgetApproval(w) => d.(approvals := d.approvals - {w})
    case ForgetHook(w) => d.(hooks := d.hooks - {w})
    case RemoveIntent(n) => d.(intents := d.intents - {n})
  }

  /** An operation cut part way: only a directory can be left half removed. */
  predicate Torn(d: Disk, op: Op, after: Disk) {
    after == d
    || (op.RemoveDir? && op.id in d.sessions && op.id in after.sessions
        && (forall f :: f in after.sessions[op.id] ==> f in d.sessions[op.id] && after.sessions[op.id][f] == d.sessions[op.id][f])
        && after == d.(sessions := d.sessions[op.id := after.sessions[op.id]]))
  }

  function PerformAll(d: Disk, ops: seq<Op>): Disk {
    if ops == [] then d else Perform(PerformAll(d, ops[..|ops|-1]), ops[|ops|-1])
  }

  function TaskOps(ids: seq<Id>): seq<Op> {
    if ids == [] then [] else TaskOps(ids[..|ids|-1]) + [RemoveTask(ids[|ids|-1])]
  }

  function SessionOps(ids: seq<Id>): seq<Op> {
    if ids == [] then [] else SessionOps(ids[..|ids|-1]) + [RemoveReading(ids[|ids|-1]), RemoveDir(ids[|ids|-1])]
  }

  function Canonical(i: Intent): string {
    if i.hookWorkspace == "" then i.workspace else i.hookWorkspace
  }

  function TrustOps(i: Intent): seq<Op> {
    if i.workspace == "" then [] else [ForgetApproval(i.workspace), ForgetHook(Canonical(i))]
  }

  /** Everything `finishDeletion` removes before the intent itself. */
  function CleanOps(i: Intent): seq<Op> {
    TaskOps(i.taskIDs) + SessionOps(i.sessionIDs) + TrustOps(i)
  }

  function Ops(name: Name, i: Intent): seq<Op> {
    CleanOps(i) + [RemoveIntent(name)]
  }

  lemma {:induction false} PerformConcat(d: Disk, a: seq<Op>, b: seq<Op>)
    ensures PerformAll(d, a + b) == PerformAll(PerformAll(d, a), b)
  {
    if b == [] {
      assert a + b == a;
    } else {
      assert (a + b)[..|a + b|-1] == a + b[..|b|-1];
      PerformConcat(d, a, b[..|b|-1]);
    }
  }

  lemma PerformOne(d: Disk, ops: seq<Op>, op: Op)
    ensures PerformAll(d, ops + [op]) == Perform(PerformAll(d, ops), op)
  {
    assert (ops + [op])[..|ops|] == ops;
  }

  class Files {
    var disk: Disk

    constructor (disk: Disk)
      ensures this.disk == disk
    {
      this.disk := disk;
    }

    method Do(op: Op)
      modifies this
      ensures disk == Perform(old(disk), op)
    {
      disk := Perform(disk, op);
    }

    /** `finishDeletion` without a failure: tasks, sessions, trust, and the intent last. */
    method FinishDeletion(name: Name, intent: Intent)
      modifies this
      ensures disk == PerformAll(old(disk), Ops(name, intent))
    {
      ghost var start := disk;
      NothingDone(start);
      hide PerformAll, Perform, TaskOps, SessionOps;
      assert intent.taskIDs[..0] == [];
      for k := 0 to |intent.taskIDs|
        invariant disk == PerformAll(start, TaskOps(intent.taskIDs[..k]))
      {
        TaskStep(start, intent.taskIDs, k);
        Do(RemoveTask(intent.taskIDs[k]));
      }
      assert intent.taskIDs[..|intent.taskIDs|] == intent.taskIDs;
      ghost var tasksDone := TaskOps(intent.taskIDs);
      assert intent.sessionIDs[..0] == [] && tasksDone + [] == tasksDone;
      for k := 0 to |intent.sessionIDs|
        invariant disk == PerformAll(start, tasksDone + SessionOps(intent.sessionIDs[..k]))
      {
        SessionStep(start, tasksDone, intent.sessionIDs, k);
        Do(RemoveReading(intent.sessionIDs[k]));
        Do(RemoveDir(intent.sessionIDs[k]));
      }
      assert intent.sessionIDs[..|intent.sessionIDs|] == intent.sessionIDs;
      ghost var sessionsDone := tasksDone + SessionOps(intent.sessionIDs);
      if intent.workspace != "" {
        PerformOne(start, sessionsDone, ForgetApproval(intent.workspace));
        Do(ForgetApproval(intent.workspace));
        var canonical := intent.hookWorkspace;
        if canonical == "" {
          canonical := intent.workspace;
        }
        PerformOne(start, sessionsDone + [ForgetApproval(intent.workspace)], ForgetHook(canonical));
        Do(ForgetHook(canonical));
        assert sessionsDone + [ForgetApproval(intent.workspace)] + [ForgetHook(canonical)] == CleanOps(intent);
      } else {
        assert sessionsDone + [] == sessionsDone;
      }
      PerformOne(start, CleanOps(intent), RemoveIntent(name));
      Do(RemoveIntent(name));
    }
  }

  lemma NothingDone(start: Disk)
    ensures PerformAll(start, []) == start && TaskOps([]) == [] && SessionOps([]) == []
  {}

  lemma TaskStep(start: Disk, ids: seq<Id>, k: nat)
    requires k < |ids|
    ensures PerformAll(start, TaskOps(ids[..k+1])) == Perform(PerformAll(start, TaskOps(ids[..k])), RemoveTask(ids[k]))
  {
    assert ids[..k+1][..k] == ids[..k];
    PerformOne(start, TaskOps(ids[..k]), RemoveTask(ids[k]));
  }

  lemma SessionStep(start: Disk, done: seq<Op>, ids: seq<Id>, k: nat)
    requires k < |ids|
    ensures PerformAll(start, done + SessionOps(ids[..k+1]))
            == Perform(Perform(PerformAll(start, done + SessionOps(ids[..k])), RemoveReading(ids[k])), RemoveDir(ids[k]))
  {
    var before := done + SessionOps(ids[..k]);
    assert ids[..k+1][..k] == ids[..k];
    assert done + SessionOps(ids[..k+1]) == before + [RemoveReading(ids[k])] + [RemoveDir(ids[k])];
    PerformOne(start, before, RemoveReading(ids[k]));
    PerformOne(start, before + [RemoveReading(ids[k])], RemoveDir(ids[k]));
  }

  // ---------- what all intents together ask for ----------

  function TaskTargets(intents: map<Name, Intent>): set<Id> {
    set n, t | n in intents && t in intents[n].taskIDs :: t
  }

  function SessionTargets(intents: map<Name, Intent>): set<Id> {
    set n, s | n in intents && s in intents[n].sessionIDs :: s
  }

  function ApprovalTargets(intents: map<Name, Intent>): set<string> {
    set n | n in intents && intents[n].workspace != "" :: intents[n].workspace
  }

  function HookTargets(intents: map<Name, Intent>): set<string> {
    set n | n in intents && intents[n].workspace != "" :: Canonical(intents[n])
  }

  /** The disk once every intent of `all` has been carried out. */
  function Cleaned(all: map<Name, Intent>, d: Disk): Disk {
    Disk(d.tasks - TaskTargets(all), d.reading - SessionTargets(all), d.sessions - SessionTargets(all),
         d.approvals - ApprovalTargets(all), d.hooks - HookTargets(all), d.intents - all.Keys)
  }

  /** What is gone in the end: the tasks and sessions that some intent names, the approval of its workspace, the
      hooks' trust of the workspace that its hooks were trusted for, and the intents; everything else stays. */
  lemma WhatIsCleaned(all: map<Name, Intent>, d: Disk)
    ensures var after := Cleaned(all, d);
            && (forall t :: t in after.tasks <==> t in d.tasks && forall n :: n in all ==> t !in all[n].taskIDs)
            && (forall s :: s in after.sessions <==> s in d.sessions && forall n :: n in all ==> s !in all[n].sessionIDs)
            && (forall s :: s in after.reading <==> s in d.reading && forall n :: n in all ==> s !in all[n].sessionIDs)
            && (forall t :: t in after.tasks ==> after.tasks[t] == d.tasks[t])
            && (forall s :: s in after.sessions ==> after.sessions[s] == d.sessions[s])
            && (forall s :: s in after.reading ==> after.reading[s] == d.reading[s])
            && (forall n :: n in after.intents <==> n in d.intents && n !in all)
    ensures forall w :: w in Cleaned(all, d).approvals <==> w in d.approvals && forall n :: n in all ==> w == "" || w != all[n].workspace
    ensures forall w :: w in Cleaned(all, d).hooks <==>
              w in d.hooks && forall n :: n in all && all[n].workspace != "" ==>
                w != (if all[n].hookWorkspace != "" then all[n].hookWorkspace else all[n].workspace)
  {}

  /** Nothing the intent asks to remove is there any more. */
  predicate Gone(d: Disk, i: Intent) {
    && (forall t :: t in i.taskIDs ==> t !in d.tasks)
    && (forall s :: s in i.sessionIDs ==> s !in d.reading && s !in d.sessions)
    && (i.workspace != "" ==> i.workspace !in d.approvals && Canonical(i) !in d.hooks)
  }

  /** The operation removes something that intent `i` names. */
  predicate Asked(op: Op, i: Intent) {
    match op
    case RemoveTask(id) => id in i.taskIDs
    case RemoveReading(id) => id in i.sessionIDs
    case RemoveDir(id) => id in i.sessionIDs
    case ForgetApproval(w) => i.workspace != "" && w == i.workspace
    case ForgetHook(w) => i.workspace != "" && w == Canonical(i)
    case RemoveIntent(_) => false
  }

  /** Between the first write of the intents and their complete execution. */
  predicate Between(all: map<Name, Intent>, start: Disk, d: Disk) {
    && Cleaned(all, d) == Cleaned(all, start)
    && (forall n :: n in d.intents ==> n in all && d.intents[n] == all[n])
    && forall n :: n in all ==> n in d.intents || Gone(d, all[n])
  }

  lemma AskedIsTarget(all: map<Name, Intent>, n: Name, op: Op)
    requires n in all && Asked(op, all[n])
    ensures match op
            case RemoveTask(id) => id in TaskTargets(all)
            case RemoveReading(id) => id in SessionTargets(all)
            case RemoveDir(id) => id in SessionTargets(all)
            case ForgetApproval(w) => w in ApprovalTargets(all)
            case ForgetHook(w) => w in HookTargets(all)
            case RemoveIntent(_) => false
  {}

  /** What is gone stays gone. */
  lemma GoneStays(d: Disk, op: Op, after: Disk, i: Intent)
    requires after == Perform(d, op) || Torn(d, op, after)
    requires Gone(d, i)
    ensures Gone(after, i)
  {}

  lemma RemovalCleans(all: map<Name, Intent>, d: Disk, n: Name, op: Op, after: Disk)
    requires n in all && Asked(op, all[n])
    requires after == Perform(d, op) || Torn(d, op, after)
    ensures Cleaned(all, after) == Cleaned(all, d) && after.intents == d.intents
  {
    AskedIsTarget(all, n, op);
    hide TaskTargets, SessionTargets, ApprovalTargets, HookTargets, Asked;
  }

  /** A removal an intent asks for, whole or torn, changes nothing in the final result. */
  lemma RemovalKeeps(all: map<Name, Intent>, start: Disk, d: Disk, n: Name, op: Op, after: Disk)
    requires Between(all, start, d) && n in all && Asked(op, all[n])
    requires after == Perform(d, op) || Torn(d, op, after)
    ensures Between(all, start, after) && after.intents == d.intents
    ensures forall i: Intent :: Gone(d, i) ==> Gone(after, i)
  {
    RemovalCleans(all, d, n, op, after);
    forall i: Intent | Gone(d, i)
      ensures Gone(after, i)
    {
      GoneStays(d, op, after, i);
    }
    hide Cleaned, Gone, Torn, Perform, Asked;
  }

  /** The intent goes only when nothing it asks for is left. */
  lemma IntentRemovalKeeps(all: map<Name, Intent>, start: Disk, d: Disk, n: Name)
    requires Between(all, start, d) && n in all && Gone(d, all[n])
    ensures Between(all, start, Perform(d, RemoveIntent(n)))
  {
    hide TaskTargets, SessionTargets, ApprovalTargets, HookTargets;
    assert d.intents - {n} - all.Keys == d.intents - all.Keys;
  }

  // ---------- one replay of one intent ----------

  lemma {:induction false} TaskOpsAsk(ids: seq<Id>, i: Intent)
    requires forall t :: t in ids ==> t in i.taskIDs
    ensures forall op :: op in TaskOps(ids) ==> Asked(op, i)
  {
    if ids != [] {
      assert ids[|ids|-1] in ids && forall t :: t in ids[..|ids|-1] ==> t in ids;
      TaskOpsAsk(ids[..|ids|-1], i);
    }
  }

  lemma {:induction false} SessionOpsAsk(ids: seq<Id>, i: Intent)
    requires forall s :: s in ids ==> s in i.sessionIDs
    ensures forall op :: op in SessionOps(ids) ==> Asked(op, i)
  {
    if ids != [] {
      assert ids[|ids|-1] in ids && forall s :: s in ids[..|ids|-1] ==> s in ids;
      SessionOpsAsk(ids[..|ids|-1], i);
    }
  }

  lemma CleanOpsAsk(i: Intent)
    ensures forall op :: op in CleanOps(i) ==> Asked(op, i)
  {
    TaskOpsAsk(i.taskIDs, i);
    SessionOpsAsk(i.sessionIDs, i);
  }

  lemma {:induction false} OpsKeep(all: map<Name, Intent>, start: Disk, d: Disk, n: Name, ops: seq<Op>)
    requires Between(all, start, d) && n in all && forall op :: op in ops ==> Asked(op, all[n])
    ensures Between(all, start, PerformAll(d, ops)) && PerformAll(d, ops).intents == d.intents
    ensures forall i: Intent :: Gone(d, i) ==> Gone(PerformAll(d, ops), i)
    decreases |ops|
  {
    if ops != [] {
      var front, last := ops[..|ops|-1], ops[|ops|-1];
      assert last in ops && forall op :: op in front ==> op in ops;
      OpsKeep(all, start, d, n, front);
      RemovalKeeps(all, start, PerformAll(d, front), n, last, PerformAll(d, ops));
    }
  }

  lemma {:induction false} TasksGone(d: Disk, ids: seq<Id>)
    ensures forall t :: t in ids ==> t !in PerformAll(d, TaskOps(ids)).tasks
  {
    if ids != [] {
      var front := ids[..|ids|-1];
      TasksGone(d, front);
      PerformOne(d, TaskOps(front), RemoveTask(ids[|ids|-1]));
      assert ids == front + [ids[|ids|-1]];
    }
  }

  lemma {:induction false} SessionsGone(d: Disk, ids: seq<Id>)
    ensures var after := PerformAll(d, SessionOps(ids));
            && (forall s :: s in ids ==> s !in after.reading && s !in after.sessions)
            && after.tasks == d.tasks
  {
    if ids != [] {
      var front, last := ids[..|ids|-1], ids[|ids|-1];
      SessionsGone(d, front);
      PerformOne(d, SessionOps(front), RemoveReading(last));
      PerformOne(d, SessionOps(front) + [RemoveReading(last)], RemoveDir(last));
      assert SessionOps(front) + [RemoveReading(last)] + [RemoveDir(last)] == SessionOps(ids);
      assert ids == front + [last];
    }
  }

  /** After its clean-up nothing an intent asks for is left. */
  lemma CleanLeavesNothing(d: Disk, i: Intent)
    ensures Gone(PerformAll(d, CleanOps(i)), i)
  {
    var a := PerformAll(d, TaskOps(i.taskIDs));
    var b := PerformAll(a, SessionOps(i.sessionIDs));
    TasksGone(d, i.taskIDs);
    SessionsGone(a, i.sessionIDs);
    PerformConcat(d, TaskOps(i.taskIDs), SessionOps(i.sessionIDs));
    PerformConcat(d, TaskOps(i.taskIDs) + SessionOps(i.sessionIDs), TrustOps(i));
    TrustGone(b, i);
    hide PerformAll, TaskOps, SessionOps, TrustOps;
  }

  lemma TrustGone(d: Disk, i: Intent)
    ensures var after := PerformAll(d, TrustOps(i));
            && after.tasks == d.tasks && after.reading == d.reading && after.sessions == d.sessions
            && (i.workspace != "" ==> i.workspace !in after.approvals && Canonical(i) !in after.hooks)
  {
    if i.workspace != "" {
      PerformOne(d, [], ForgetApproval(i.workspace));
      PerformOne(d, [ForgetApproval(i.workspace)], ForgetHook(Canonical(i)));
      assert [] + [ForgetApproval(i.workspace)] == [ForgetApproval(i.workspace)];
      assert [ForgetApproval(i.workspace)] + [ForgetHook(Canonical(i))] == TrustOps(i);
    }
  }

  /** One intent carried out, or cut off after `k` whole operations and a torn one. */
  ghost predicate Cut(d: Disk, name: Name, i: Intent, after: Disk) {
    exists k: nat :: CutAt(d, name, i, k, after)
  }

  predicate CutAt(d: Disk, name: Name, i: Intent, k: nat, after: Disk) {
    k < |Ops(name, i)| && Torn(PerformAll(d, Ops(name, i)[..k]), Ops(name, i)[k], after)
  }

  lemma FinishKeeps(all: map<Name, Intent>, start: Disk, d: Disk, n: Name)
    requires Between(all, start, d) && n in d.intents
    ensures var after := PerformAll(d, Ops(n, d.intents[n]));
            Between(all, start, after) && after.intents == d.intents - {n}
  {
    var i := d.intents[n];
    CleanOpsAsk(i);
    OpsKeep(all, start, d, n, CleanOps(i));
    CleanLeavesNothing(d, i);
    PerformOne(d, CleanOps(i), RemoveIntent(n));
    IntentRemovalKeeps(all, start, PerformAll(d, CleanOps(i)), n);
  }

  lemma CutKeeps(all: map<Name, Intent>, start: Disk, d: Disk, n: Name, after: Disk)
    requires Between(all, start, d) && n in d.intents && Cut(d, n, d.intents[n], after)
    ensures Between(all, start, after) && after.intents == d.intents
  {
    var i := d.intents[n];
    var ops := Ops(n, i);
    var k: nat :| CutAt(d, n, i, k, after);
    CleanOpsAsk(i);
    assert ops[..k] == CleanOps(i)[..k];
    assert forall op :: op in CleanOps(i)[..k] ==> op in CleanOps(i);
    OpsKeep(all, start, d, n, CleanOps(i)[..k]);
    if k < |CleanOps(i)| {
      assert ops[k] == CleanOps(i)[k] && CleanOps(i)[k] in CleanOps(i);
      RemovalKeeps(all, start, PerformAll(d, ops[..k]), n, ops[k], after);
    }
  }

  // ---------- recovery ----------

  /** What one start of the process does to the disk: `RecoverDeletions` carries out the intents one
      after the other in some order, and may be cut off in any of them. */
  ghost predicate Replays(d: Disk, order: seq<Name>, complete: bool, after: Disk)
    decreases |order|
  {
    if order == [] then after == d && (complete ==> d.intents == map[])
    else
      var n := order[0];
      n in d.intents
      && if |order| == 1 && !complete then Cut(d, n, d.intents[n], after)
         else Replays(PerformAll(d, Ops(n, d.intents[n])), order[1..], complete, after)
  }

  lemma {:induction false} ReplayKeeps(all: map<Name, Intent>, start: Disk, d: Disk, order: seq<Name>, complete: bool, after: Disk)
    requires Between(all, start, d) && Replays(d, order, complete, after)
    ensures Between(all, start, after) && (complete ==> after.intents == map[])
    decreases |order|
  {
    hide Between, Ops, PerformAll;
    if order != [] {
      var n := order[0];
      if |order| == 1 && !complete {
        CutKeeps(all, start, d, n, after);
      } else {
        FinishKeeps(all, start, d, n);
        ReplayKeeps(all, start, PerformAll(d, Ops(n, d.intents[n])), order[1..], complete, after);
      }
    }
  }

  datatype Attempt = Attempt(order: seq<Name>, after: Disk)

  /** Any number of starts, each cut off before it was through. */
  ghost predicate Attempts(d: Disk, attempts: seq<Attempt>)
    decreases |attempts|
  {
    attempts == [] || (Replays(d, attempts[0].order, false, attempts[0].after) && Attempts(attempts[0].after, attempts[1..]))
  }

  function Last(d: Disk, attempts: seq<Attempt>): Disk {
    if attempts == [] then d else attempts[|attempts|-1].after
  }

  lemma {:induction false} AttemptsKeep(all: map<Name, Intent>, start: Disk, d: Disk, attempts: seq<Attempt>)
    requires Between(all, start, d) && Attempts(d, attempts)
    ensures Between(all, start, Last(d, attempts))
    decreases |attempts|
  {
    hide Between, Replays;
    if attempts != [] {
      ReplayKeeps(all, start, d, attempts[0].order, false, attempts[0].after);
      AttemptsKeep(all, start, attempts[0].after, attempts[1..]);
    }
  }

  lemma StartsBetween(start: Disk)
    ensures Between(start.intents, start, start)
  {}

  /** A disk between start and end with no intent left is the finished one. */
  lemma NothingLeft(all: map<Name, Intent>, start: Disk, d: Disk)
    requires Between(all, start, d) && d.intents == map[]
    ensures d == Cleaned(all, start)
  {
    assert forall n :: n in all ==> Gone(d, all[n]);
    assert d.tasks - TaskTargets(all) == d.tasks;
    assert d.reading - SessionTargets(all) == d.reading;
    assert d.sessions - SessionTargets(all) == d.sessions;
    assert d.approvals - ApprovalTargets(all) == d.approvals;
    assert d.hooks - HookTargets(all) == d.hooks;
  }

  /** However often the clean-up is cut off, part way through a directory or between two files, the
      first start that gets through leaves exactly the disk that an undisturbed run would have
      left, whatever order the intents are found in. */
  lemma ReplayConverges(start: Disk, attempts: seq<Attempt>, order: seq<Name>, after: Disk)
    requires Attempts(start, attempts) && Replays(Last(start, attempts), order, true, after)
    ensures after == Cleaned(start.intents, start) && after.intents == map[]
  {
    StartsBetween(start);
    AttemptsKeep(start.intents, start, start, attempts);
    ReplayKeeps(start.intents, start, Last(start, attempts), order, true, after);
    NothingLeft(start.intents, start, after);
  }

  lemma {:induction false} SomeEnd(all: map<Name, Intent>, start: Disk, d: Disk, order: seq<Name>) returns (after: Disk)
    requires Between(all, start, d) && NoDuplicates(order) && forall n :: n in order <==> n in d.intents
    ensures Replays(d, order, true, after)
    decreases |order|
  {
    hide Between, Ops, PerformAll;
    after := d;
    if order == [] {
      assert d.intents.Keys == {};
    } else {
      var n := order[0];
      FinishKeeps(all, start, d, n);
      forall m
        ensures m in order[1..] <==> m in d.intents - {n}
      {
        assert order == [n] + order[1..];
      }
      after := SomeEnd(all, start, PerformAll(d, Ops(n, d.intents[n])), order[1..]);
    }
  }

  /** After any number of starts that were cut off, the next one can be carried through, in any order of the
      intents that are still there. */
  lemma RecoveryCompletes(start: Disk, attempts: seq<Attempt>, order: seq<Name>)
    requires Attempts(start, attempts) && NoDuplicates(order) && forall n :: n in order <==> n in Last(start, attempts).intents
    ensures Replays(Last(start, attempts), order, true, Cleaned(start.intents, start))
  {
    StartsBetween(start);
    AttemptsKeep(start.intents, start, start, attempts);
    var after := SomeEnd(start.intents, start, Last(start, attempts), order);
    ReplayConverges(start, attempts, order, after);
  }

  /** An undisturbed deletion is the special case of a single intent carried out at once. */
  lemma UninterruptedIsCleaned(start: Disk, name: Name)
    requires start.intents.Keys == {name}
    ensures PerformAll(start, Ops(name, start.intents[name])) == Cleaned(start.intents, start)
  {
    StartsBetween(start);
    FinishKeeps(start.intents, start, start, name);
    var after := PerformAll(start, Ops(name, start.intents[name]));
    assert after.intents == map[];
    NothingLeft(start.intents, start, after);
  }

  /** A deletion from its first write to the first complete recovery, next to intents that may be pending
      already: the disk is the one that recovery would have left without this deletion, or the one it leaves
      with this deletion carried out completely. */
  lemma AllOrNothing(before: Disk, name: Name, i: Intent, w: WriteResult, attempts: seq<Attempt>, order: seq<Name>, after: Disk)
    requires name !in before.intents
    requires var saved := SaveDeletion(before, name, i, w).0;
             Attempts(saved, attempts) && Replays(Last(saved, attempts), order, true, after)
    ensures after == Cleaned(before.intents, before) || after == Cleaned(before.intents[name := i], before)
    ensures before.intents == map[] ==> after == before || after == PerformAll(before.(intents := map[name := i]), Ops(name, i))
  {
    var saved := SaveDeletion(before, name, i, w).0;
    ReplayConverges(saved, attempts, order, after);
    NotPendingMeansUntouched(before, name, i, w);
    if saved != before { CleanedAlike(before, name, i); }
    if before.intents == map[] { AllOrNothingAlone(before, name, i, saved); }
  }

  /** Whether the new intent is on the disk already makes no difference to what is left. */
  lemma CleanedAlike(before: Disk, name: Name, i: Intent)
    ensures var all := before.intents[name := i]; Cleaned(all, before.(intents := all)) == Cleaned(all, before)
  {
    hide TaskTargets, SessionTargets, ApprovalTargets, HookTargets;
  }

  lemma AllOrNothingAlone(before: Disk, name: Name, i: Intent, saved: Disk)
    requires before.intents == map[] && (saved == before || saved == before.(intents := before.intents[name := i]))
    ensures saved == before ==> Cleaned(saved.intents, saved) == before
    ensures saved != before ==> Cleaned(saved.intents, saved) == PerformAll(before.(intents := map[name := i]), Ops(name, i))
  {
    if saved == before {
      StartsBetween(before);
      NothingLeft(map[], before, before);
    } else {
      assert saved.intents == map[name := i];
      UninterruptedIsCleaned(saved, name);
    }
  }
}
