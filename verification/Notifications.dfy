/** Reports of finished child tasks, retried until the parent's ledger has them
    (internal/subagents/notifications.go). */
module Notifications {
  import opened Basics
  import opened Messages
  import opened Ledger
  import opened Inputs

  type TaskID = string
  type SessionID = string

  /** `resultMissing`: the projection names a result it does not list. */
  datatype Notification = Notification(id: string, child: SessionID, run: string, resultMissing: bool)

  datatype Task = Task(id: TaskID, parent: SessionID, child: SessionID)

  /** A run of the child session, as the projection of its task reads it. */
  datatype ChildRun = ChildRun(runID: string, terminal: bool, resultMissing: bool)

  datatype Projection = Unavailable | Unreadable | Ready(notifications: seq<Notification>)

  /** What one pass has done about one task. */
  datatype Pass = PassedOver | Dropped | Failed | Retried | Settled(notifications: seq<Notification>)

  function NotificationMessage(task: Task, n: Notification): (r: Result<Message, string>)
    ensures r.Err? <==> n.resultMissing
    ensures r.Ok? ==> r.value.role == Collaboration && r.value.messageID == n.id && r.value.sourceSessionID == n.child
                      && r.value.carried.sourceTaskID == task.id && r.value.carried.sourceRunID == n.run
  {
    if n.resultMissing then Err("result missing from projection")
    else Ok(Message(None, Collaboration, [TextBlock("report")], false, "", n.id, n.child, Carried(false, "", task.id, n.run, 0)))
  }

  // ---------- the identity of a report ----------

  function Digit(n: nat): (c: char)
    requires n < 10
    ensures c as int == '0' as int + n
  {
    "0123456789"[n]
  }

  function Decimal(n: nat): (s: string)
    ensures s != [] && '-' !in s
  {
    if n < 10 then [Digit(n)] else Decimal(n / 10) + [Digit(n % 10)]
  }

  /** `notificationID`. */
  function NotificationID(task: TaskID, turn: nat): string {
    task + "-turn-" + Decimal(turn)
  }

  lemma DigitsApart(m: nat, n: nat)
    requires m < 10 && n < 10 && Digit(m) == Digit(n)
    ensures m == n
  {}

  lemma LastDigit(n: nat)
    ensures var s := Decimal(n); s[|s|-1] == Digit(n % 10) && s[..|s|-1] == if n < 10 then [] else Decimal(n / 10)
  {}

  lemma {:induction false} DecimalApart(m: nat, n: nat)
    requires Decimal(m) == Decimal(n)
    ensures m == n
  {
    LastDigit(m);
    LastDigit(n);
    DigitsApart(m % 10, n % 10);
    if m >= 10 && n >= 10 { DecimalApart(m / 10, n / 10); }
  }

  /** No dash behind the last one. */
  lemma NoLaterDash(a: string, x: string, i: int)
    requires '-' !in x && |a| + 5 < i < |a| + 6 + |x|
    ensures (a + "-turn-" + x)[i] != '-'
  {
    var s := a + "-turn-" + x;
    assert s[i] == x[i - |a| - 6];
  }

  /** Splitting at the last dash. */
  lemma LastDash(a: string, b: string, x: string, y: string)
    requires a + "-turn-" + x == b + "-turn-" + y && '-' !in x && '-' !in y
    ensures a == b && x == y
  {
    var s := a + "-turn-" + x;
    assert s[|a|+5] == '-' && s[|b|+5] == '-';
    assert s[..|a|] == a && s[..|b|] == b && s[|a|+6..] == x && s[|b|+6..] == y;
    if |a| < |b| {
      NoLaterDash(a, x, |b| + 5);
    } else if |b| < |a| {
      NoLaterDash(b, y, |a| + 5);
    }
  }

  /** The identity of a report fixes its task and its turn. */
  lemma IdentityFixesTask(a: TaskID, b: TaskID, m: nat, n: nat)
    requires NotificationID(a, m) == NotificationID(b, n)
    ensures a == b && m == n
  {
    LastDash(a, b, Decimal(m), Decimal(n));
    DecimalApart(m, n);
  }

  /** What `newTaskID` draws: "task-" and hexadecimal digits. */
  predicate DrawnID(id: TaskID) {
    "task-" <= id && '-' !in id[5..]
  }

  /** Deleting a task looks its own ID up in the cache of confirmed reports. No report goes by a task's ID,
      so whatever tasks are deleted, the cache stays as it is. */
  lemma PruningMissesReports(confirmed: set<string>, gone: set<TaskID>)
    requires forall id :: id in confirmed ==> exists task: TaskID, turn: nat :: id == NotificationID(task, turn)
    requires forall t :: t in gone ==> DrawnID(t)
    ensures confirmed - gone == confirmed
  {
    forall id | id in confirmed
      ensures id !in gone
    {
      var task: TaskID, turn: nat :| id == NotificationID(task, turn);
      TwoDashes(task, Decimal(turn));
    }
  }

  lemma TwoDashes(a: string, x: string)
    ensures !DrawnID(a + "-turn-" + x)
  {
    var s := a + "-turn-" + x;
    assert s[|a|] == '-' && s[|a|+5] == '-' && |s| > |a| + 5;
    assert s[|a|+5] == s[5..][|a|] && s[5..][|a|] in s[5..];
  }

  ghost predicate OfTask(task: Task, id: string) {
    exists turn: nat :: id == NotificationID(task.id, turn)
  }

  ghost predicate AllOf(task: Task, notifications: seq<Notification>) {
    forall n :: n in notifications ==> OfTask(task, n.id)
  }

  /** One report for every run that is over, by the number of its turn, and no other. */
  ghost predicate ReportsOf(task: Task, runs: seq<ChildRun>, notifications: seq<Notification>) {
    && (forall i :: 0 <= i < |runs| && runs[i].terminal ==> ReportOf(task, runs, i) in notifications)
    && (forall n :: n in notifications ==> exists i :: 0 <= i < |runs| && runs[i].terminal && n == ReportOf(task, runs, i))
  }

  ghost function ReportOf(task: Task, runs: seq<ChildRun>, i: nat): Notification
    requires i < |runs|
  {
    Notification(NotificationID(task.id, i + 1), task.child, runs[i].runID, runs[i].resultMissing)
  }

  lemma MoreReports(task: Task, runs: seq<ChildRun>, i: nat, notifications: seq<Notification>)
    requires i < |runs| && ReportsOf(task, runs[..i], notifications)
    ensures ReportsOf(task, runs[..i+1], if runs[i].terminal then notifications + [ReportOf(task, runs, i)] else notifications)
  {
    hide NotificationID;
    var before, now := runs[..i], runs[..i+1];
    assert forall k :: 0 <= k < i ==> now[k] == before[k] && ReportOf(task, now, k) == ReportOf(task, before, k);
    assert now[i] == runs[i] && ReportOf(task, now, i) == ReportOf(task, runs, i);
  }

  lemma ReportsOfTask(task: Task, runs: seq<ChildRun>, notifications: seq<Notification>)
    requires ReportsOf(task, runs, notifications)
    ensures AllOf(task, notifications)
  {
    forall n | n in notifications
      ensures OfTask(task, n.id)
    {
      var i :| 0 <= i < |runs| && runs[i].terminal && n == ReportOf(task, runs, i);
      assert n.id == NotificationID(task.id, i + 1);
    }
  }

  predicate Reported(entries: seq<Entry>, id: string) {
    exists e :: e in entries && e.message.messageID == id
  }

  lemma ReportedStays(before: seq<Entry>, now: seq<Entry>, id: string)
    requires Reported(before, id) && before <= now
    ensures Reported(now, id)
  {
    var e :| e in before && e.message.messageID == id;
    assert now == before + now[|before|..];
  }

  type Ledgers = map<SessionID, seq<Entry>>

  /** The ledger of `parent` holds a report of this name. */
  predicate HoldsIn(ledgers: Ledgers, parent: SessionID, id: string) {
    parent in ledgers && Reported(ledgers[parent], id)
  }

  predicate GrownFrom(before: Ledgers, ledgers: Ledgers) {
    forall p :: p in before ==> p in ledgers && before[p] <= ledgers[p]
  }

  predicate DistinctTasks(tasks: seq<Task>) {
    forall i, j :: 0 <= i < j < |tasks| ==> tasks[i].id != tasks[j].id
  }

  /** No confirmed report is missing from the ledger of its own task's parent. */
  ghost predicate HonestFor(tasks: seq<Task>, confirmed: set<string>, ledgers: Ledgers) {
    forall task, id :: task in tasks && id in confirmed && OfTask(task, id) ==> HoldsIn(ledgers, task.parent, id)
  }

  /** Ledgers only grow, so what was confirmed stays true. */
  lemma StaysHonest(tasks: seq<Task>, confirmed: set<string>, before: Ledgers, ledgers: Ledgers)
    requires HonestFor(tasks, confirmed, before) && GrownFrom(before, ledgers)
    ensures HonestFor(tasks, confirmed, ledgers)
  {
    forall task, id | task in tasks && id in confirmed && OfTask(task, id)
      ensures HoldsIn(ledgers, task.parent, id)
    {
      assert HoldsIn(before, task.parent, id);
      ReportedStays(before[task.parent], ledgers[task.parent], id);
    }
  }

  /** A report in its own parent's ledger may be confirmed: no other task has a report of this name. */
  lemma MayConfirm(tasks: seq<Task>, confirmed: set<string>, ledgers: Ledgers, task: Task, id: string)
    requires HonestFor(tasks, confirmed, ledgers) && DistinctTasks(tasks)
    requires task in tasks && OfTask(task, id) && HoldsIn(ledgers, task.parent, id)
    ensures HonestFor(tasks, confirmed + {id}, ledgers)
  {
    forall other, x | other in tasks && x in confirmed + {id} && OfTask(other, x)
      ensures HoldsIn(ledgers, other.parent, x)
    {
      if x !in confirmed {
        var m: nat :| id == NotificationID(task.id, m);
        var n: nat :| x == NotificationID(other.id, n);
        IdentityFixesTask(task.id, other.id, m, n);
      }
    }
  }

  /** The runner as the deliveries see it: ledgers that only grow, and runs that come and go. */
  class Parents {
    var ledgers: map<SessionID, seq<Entry>>
    var closing: bool
    /** Something out here has gone wrong: a closing, a stopped parent, a task that cannot be read, a report not taken. */
    ghost var troubled: bool
    /** The runs that `projectTask` has read last. */
    ghost var runs: seq<ChildRun>

    constructor ()
      ensures !troubled
    {
      ledgers, closing, troubled, runs := map[], false, false, [];
    }

    method Closing() returns (closed: bool)
      modifies this`closing, this`troubled
      ensures closed == closing && (old(closing) ==> closing)
      ensures troubled == (old(troubled) || closed)
    {
      if !closing { closing := *; }
      closed := closing;
      troubled := troubled || closed;
    }

    /** Whether the parent's current run is the one a stop has been asked for. */
    method Stopped(parent: SessionID) returns (stopped: bool)
      modifies this`troubled
      ensures troubled == (old(troubled) || stopped)
    {
      stopped := *;
      troubled := troubled || stopped;
    }

    /** `projectTask`: one report for every run of the child that is over, named by its task and turn. */
    method ProjectTask(task: Task) returns (p: Projection)
      modifies this`troubled, this`runs
      ensures p.Ready? ==> ReportsOf(task, runs, p.notifications) && AllOf(task, p.notifications)
      ensures troubled == (old(troubled) || !p.Ready? || exists n :: n in p.notifications && n.resultMissing)
    {
      hide NotificationID;
      var session: Option<seq<ChildRun>>, unreadable: bool := *, *;
      if session.None? || unreadable || session.value == [] {
        troubled := true;
        return if session.None? || !unreadable then Unavailable else Unreadable;
      }
      runs := session.value;
      var notifications: seq<Notification> := [];
      for index := 0 to |session.value|
        modifies {}
        invariant ReportsOf(task, session.value[..index], notifications)
      {
        MoreReports(task, session.value, index, notifications);
        if session.value[index].terminal {
          notifications := notifications + [Notification(NotificationID(task.id, index + 1), task.child,
                                                         session.value[index].runID, session.value[index].resultMissing)];
        }
      }
      assert session.value[..|session.value|] == runs;
      ReportsOfTask(task, runs, notifications);
      troubled := troubled || exists n :: n in notifications && n.resultMissing;
      return Ready(notifications);
    }

    /** `Receive`: others have appended to the ledger by now; which run the parent has, if any, is open. */
    method Receive(parent: SessionID, m: Message) returns (accepted: Result<bool, string>)
      modifies this`ledgers, this`troubled
      ensures GrownFrom(old(ledgers), ledgers)
      ensures troubled == (old(troubled) || accepted != Ok(true))
      ensures accepted == Ok(true) ==> HoldsIn(ledgers, parent, m.messageID)
    {
      var more: seq<Entry> := *;
      var before := if parent in ledgers then ledgers[parent] else [];
      ledgers := ledgers[parent := before + more];
      if !Identified(m) {
        troubled := true;
        return Err("identity");
      }
      var gate: Gate := *;
      var (_, r) := ReceivedBy(gate, before + more, m, 0);
      accepted := if r == Conflict then Err("conflict") else Ok(r == InLedger);
      troubled := troubled || accepted != Ok(true);
    }
  }

  class Deliveries {
    const tasks: seq<Task>
    const parents: Parents
    var pending: set<TaskID>
    var confirmed: set<string>
    var deliveryErr: set<TaskID>

    constructor (tasks: seq<Task>, parents: Parents)
      requires DistinctTasks(tasks)
      ensures this.tasks == tasks && this.parents == parents && Honest()
    {
      this.tasks, this.parents := tasks, parents;
      pending, confirmed, deliveryErr := {}, {}, {};
    }

    /** The cache of confirmed reports never names one that is missing from the ledger of its own task's
        parent. */
    ghost predicate Honest()
      reads this`confirmed, parents`ledgers
    {
      DistinctTasks(tasks) && HonestFor(tasks, confirmed, parents.ledgers)
    }

    /** One task's reports, in order, up to the first that fails. */
    method Report(task: Task, notifications: seq<Notification>) returns (needsRetry: bool, failed: bool)
      requires Honest() && task in tasks && AllOf(task, notifications)
      modifies this`confirmed, parents
      ensures Honest() && old(confirmed) <= confirmed && GrownFrom(old(parents.ledgers), parents.ledgers)
      ensures !needsRetry ==> !failed && forall n :: n in notifications ==> n.id in confirmed && HoldsIn(parents.ledgers, task.parent, n.id)
      ensures needsRetry ==> parents.troubled || exists n :: n in notifications && n.resultMissing
      ensures old(parents.troubled) ==> parents.troubled
    {
      hide NotificationID, OfTask;
      needsRetry, failed := false, false;
      for i := 0 to |notifications|
        invariant Honest() && old(confirmed) <= confirmed && GrownFrom(old(parents.ledgers), parents.ledgers) && !failed
        invariant !needsRetry ==> forall n :: n in notifications[..i] ==> n.id in confirmed
        invariant (needsRetry ==> parents.troubled) && (old(parents.troubled) ==> parents.troubled)
      {
        var n := notifications[i];
        assert notifications[..i+1] == notifications[..i] + [n];
        var closed := parents.Closing();
        if closed { return true, false; }
        if n.id in confirmed { continue; }
        var message := NotificationMessage(task, n);
        if message.Err? { return true, true; }
        assert OfTask(task, n.id);
        ghost var before := parents.ledgers;
        var accepted := parents.Receive(task.parent, message.value);
        StaysHonest(tasks, confirmed, before, parents.ledgers);
        if accepted.Err? { return true, true; }
        if accepted.value {
          MayConfirm(tasks, confirmed, parents.ledgers, task, n.id);
          confirmed := confirmed + {n.id};
        } else {
          needsRetry := true;
        }
      }
      assert notifications[..|notifications|] == notifications;
    }

    /** A pass for another parent, or a repetition for a task that is not waiting. */
    predicate NotDue(task: Task, parentID: SessionID, retryOnly: bool, waiting: set<TaskID>) {
      (parentID != "" && task.parent != parentID) || (retryOnly && task.id !in waiting)
    }

    method Deliver(task: Task, parentID: SessionID, retryOnly: bool) returns (pass: Pass)
      requires Honest() && task in tasks
      modifies this, parents
      ensures Honest() && old(confirmed) <= confirmed && GrownFrom(old(parents.ledgers), parents.ledgers)
      ensures forall id :: id != task.id ==> (id in pending <==> id in old(pending))
      ensures match pass
              case PassedOver => pending == old(pending)
              case Dropped => task.id !in pending && task.id !in deliveryErr
              case Failed => task.id in pending && task.id in deliveryErr
              case Retried => task.id in pending && task.id !in deliveryErr
              case Settled(notifications) =>
                task.id !in pending && task.id !in deliveryErr && AllOf(task, notifications)
                && forall n :: n in notifications ==> n.id in confirmed
      ensures retryOnly && task.id !in old(pending) ==> pass == PassedOver
      ensures (old(parents.troubled) ==> parents.troubled)
      ensures parents.troubled || pass.Settled? || (pass == PassedOver && NotDue(task, parentID, retryOnly, old(pending)))
    {
      hide NotificationID, OfTask;
      if parentID != "" && task.parent != parentID { return PassedOver; }
      if retryOnly && task.id !in pending { return PassedOver; }
      var stopped := parents.Stopped(task.parent);
      if stopped { return PassedOver; }
      var projection := parents.ProjectTask(task);
      match projection
      case Unavailable =>
        pending, deliveryErr := pending - {task.id}, deliveryErr - {task.id};
        return Dropped;
      case Unreadable =>
        pending, deliveryErr := pending + {task.id}, deliveryErr + {task.id};
        return Failed;
      case Ready(notifications) =>
        var needsRetry, failed := Report(task, notifications);
        pending := if needsRetry then pending + {task.id} else pending - {task.id};
        deliveryErr := if failed then deliveryErr + {task.id} else deliveryErr - {task.id};
        return if failed then Failed else if needsRetry then Retried else Settled(notifications);
    }

    /** What is settled: reports of the task itself, all of them confirmed. */
    ghost predicate Confirmed(task: Task, pass: Pass)
      reads this`confirmed
    {
      pass.Settled? ==> AllOf(task, pass.notifications) && forall n :: n in pass.notifications ==> n.id in confirmed
    }

    /** `deliverTasks`: a task leaves the retry list only when its projection is gone for good or every
        one of its reports is in its own parent's ledger. */
    method DeliverTasks(parentID: SessionID, retryOnly: bool) returns (passes: seq<Pass>)
      requires Honest()
      modifies this, parents
      ensures Honest() && old(confirmed) <= confirmed && GrownFrom(old(parents.ledgers), parents.ledgers) && |passes| <= |tasks|
      ensures forall i :: 0 <= i < |passes| && passes[i].Settled? ==>
                forall n :: n in passes[i].notifications ==> OfTask(tasks[i], n.id) && HoldsIn(parents.ledgers, tasks[i].parent, n.id)
      ensures parents.troubled || (|passes| == |tasks| && forall i :: 0 <= i < |passes| ==>
                                     passes[i].Settled? || NotDue(tasks[i], parentID, retryOnly, old(pending)))
      ensures forall id :: id in old(pending) && id !in pending ==>
                exists i :: 0 <= i < |passes| && tasks[i].id == id && (passes[i].Dropped? || passes[i].Settled?)
    {
      hide NotificationID, OfTask;
      passes := [];
      var closed := parents.Closing();
      if closed { return; }
      for i := 0 to |tasks|
        invariant |passes| == i && Honest() && old(confirmed) <= confirmed && GrownFrom(old(parents.ledgers), parents.ledgers)
        invariant forall k :: 0 <= k < i ==> Confirmed(tasks[k], passes[k])
        invariant old(parents.troubled) ==> parents.troubled
        invariant parents.troubled || forall k :: 0 <= k < i ==> passes[k].Settled? || NotDue(tasks[k], parentID, retryOnly, old(pending))
        invariant forall k :: i <= k < |tasks| ==> (tasks[k].id in pending <==> tasks[k].id in old(pending))
        invariant forall id :: id in old(pending) && id !in pending ==>
                    exists k :: 0 <= k < i && tasks[k].id == id && (passes[k].Dropped? || passes[k].Settled?)
      {
        ghost var before, listed := passes, pending;
        var pass := Deliver(tasks[i], parentID, retryOnly);
        passes := passes + [pass];
        forall id | id in old(pending) && id !in pending
          ensures exists k :: 0 <= k < i + 1 && tasks[k].id == id && (passes[k].Dropped? || passes[k].Settled?)
        {
          if id in listed {
            assert passes[i] == pass;
          } else {
            var k :| 0 <= k < i && tasks[k].id == id && (before[k].Dropped? || before[k].Settled?);
            assert passes[k] == before[k];
          }
        }
      }
      forall i | 0 <= i < |passes| && passes[i].Settled?
        ensures forall n :: n in passes[i].notifications ==> OfTask(tasks[i], n.id) && HoldsIn(parents.ledgers, tasks[i].parent, n.id)
      {
        assert Confirmed(tasks[i], passes[i]) && tasks[i] in tasks;
      }
    }
  }
}
