/** Admission and commit of outside inputs over the successive runs of one session, under every
    interleaving (internal/runner/steer.go, collaboration.go and
    internal/subagents/notifications.go).  A caller may still hold a run that has been replaced,
    so inputs can arrive at any run there ever was. */
module Steering {
  import opened Basics
  import opened Messages
  import opened Ledger
  import opened Inputs

  datatype Completion = Completion(ticket: nat, answer: Answer)

  /** `outbox` holds answers decided but not yet handed to the waiting caller, `replies` those
      handed over.  `asked` and `landed` record the message of every admitted caller and the entry
      it became, `unpublished` whose entry's event could not be published, `commits` the admission numbers
      in the order they were written. */
  datatype World = World(
    gates: map<nat, Gate>, live: Option<nat>, ledger: seq<Entry>, counter: nat,
    issued: set<nat>, outbox: seq<Completion>, replies: seq<Completion>,
    asked: map<nat, Message>, landed: map<nat, Entry>, unpublished: set<nat>, commits: seq<nat>, received: set<string>, confirmed: set<string>)

  datatype Step =
    | Begins(run: nat, runID: string)
    | Opens(run: nat, contextDone: bool)
    | SteerArrives(run: nat, ticket: nat, expected: Option<string>, message: Message)
    | SteerFindsNone(ticket: nat, expected: Option<string>)
    | Receives(run: nat, message: Message)
    | LooksUp(message: Message)
    | Checkpoints(run: nat, final: bool, ids: seq<Id>, failed: seq<bool>)
    | Finishes(run: nat)
    | Completes(index: nat)
    | Releases(run: nat)
    | OtherEntry(entry: Entry)
    | Confirms(messageID: string)

  function IdSet(entries: seq<Entry>): set<Id> {
    set e | e in entries :: e.id
  }

  /** A checkpoint writes `|ids|` of the pending inputs; if that is not all of them, the ledger has
      refused the next.  `failed` says for which of them publishing the event went wrong. */
  predicate Enabled(w: World, step: Step) {
    match step
    case Begins(g, _) => w.live.None? && g !in w.gates
    case Opens(g, _) => w.live == Some(g) && g in w.gates
    case SteerArrives(g, t, _, m) => g in w.gates && t !in w.issued && m.messageID == ""
    case SteerFindsNone(t, _) => t !in w.issued
    case Receives(g, m) => g in w.gates && Identified(m)
    case LooksUp(m) => Identified(m)
    case Checkpoints(g, _, ids, failed) =>
      w.live == Some(g) && g in w.gates && |ids| == |failed| && |ids| <= |w.gates[g].pending|
      && NoDuplicates(ids) && forall id :: id in ids ==> id !in IdSet(w.ledger)
    case Finishes(g) => g in w.gates
    case Completes(i) => i < |w.outbox|
    case Releases(g) => w.live == Some(g) && g in w.gates && w.gates[g].steering == Closed
    case OtherEntry(e) => e.message.messageID == "" && e.id !in IdSet(w.ledger)
    case Confirms(id) => id in w.received
  }

  /** The answers a checkpoint decides for the inputs it took. */
  function Verdicts(n: nat, failed: seq<bool>): (a: seq<Answer>)
    ensures |a| == n
  {
    seq(n, i requires 0 <= i < n => if i >= |failed| then AppendFailed else if failed[i] then PublishFailed else Nil)
  }

  function AllChanged(n: nat): (a: seq<Answer>)
    ensures |a| == n && forall i :: 0 <= i < n ==> a[i] == RunChanged
  {
    seq(n, i requires 0 <= i < n => RunChanged)
  }

  /** One completion for each input somebody waits for. */
  function Completions(inputs: seq<Input>, answers: seq<Answer>): seq<Completion>
    requires |inputs| == |answers|
  {
    if inputs == [] then []
    else
      var last := |inputs| - 1;
      Completions(inputs[..last], answers[..last])
      + (if inputs[last].ticket.Some? then [Completion(inputs[last].ticket.value, answers[last])] else [])
  }

  function LandedMore(landed: map<nat, Entry>, inputs: seq<Input>, entries: seq<Entry>): map<nat, Entry>
    requires |inputs| == |entries|
  {
    if inputs == [] then landed
    else
      var last := |inputs| - 1;
      var before := LandedMore(landed, inputs[..last], entries[..last]);
      if inputs[last].ticket.Some? then before[inputs[last].ticket.value := entries[last]] else before
  }

  /** The callers whose input was written although publishing its event failed. */
  function Unpublished(inputs: seq<Input>, failed: seq<bool>): set<nat>
    requires |failed| <= |inputs|
  {
    set i | 0 <= i < |failed| && failed[i] && inputs[i].ticket.Some? :: inputs[i].ticket.value
  }

  /** The entries written for the inputs, one behind the other. */
  function Written(ledger: seq<Entry>, inputs: seq<Input>, ids: seq<Id>): (w: seq<Entry>)
    requires |ids| <= |inputs|
    ensures |w| == |ids| && forall i :: 0 <= i < |w| ==> w[i].id == ids[i] && w[i].message == inputs[i].message
  {
    seq(|ids|, i requires 0 <= i < |ids| =>
      Entry(ids[i], if i > 0 then ids[i-1] else if ledger == [] then "" else ledger[|ledger|-1].id, |ledger| + i + 1, inputs[i].message))
  }

  function Numbers(inputs: seq<Input>): (n: seq<nat>)
    ensures |n| == |inputs| && forall i :: 0 <= i < |n| ==> n[i] == inputs[i].number
  {
    seq(|inputs|, i requires 0 <= i < |inputs| => inputs[i].number)
  }

  function Without<T>(s: seq<T>, i: nat): seq<T>
    requires i < |s|
  {
    s[..i] + s[i+1..]
  }

  function Then(w: World, step: Step): World
    requires Enabled(w, step)
  {
    match step
    case Begins(g, runID) => w.(gates := w.gates[g := NewGate(runID)], live := Some(g))
    case Opens(g, contextDone) => w.(gates := w.gates[g := OpenedGate(w.gates[g], contextDone)])
    case SteerArrives(g, t, expected, m) =>
      if Admits(w.gates[g], expected) then
        w.(gates := w.gates[g := AdmittedTo(w.gates[g], Input(w.counter, Some(t), m))], counter := w.counter + 1, issued := w.issued + {t},
           asked := w.asked[t := m])
      else w.(issued := w.issued + {t}, replies := w.replies + [Completion(t, Refusal(expected))])
    case SteerFindsNone(t, expected) =>
      w.(issued := w.issued + {t}, replies := w.replies + [Completion(t, Refusal(expected))])
    case Receives(g, m) =>
      var (gate, r) := ReceivedBy(w.gates[g], w.ledger, m, w.counter);
      w.(gates := w.gates[g := gate], counter := w.counter + 1, received := if r == InLedger then w.received + {m.messageID} else w.received)
    case LooksUp(m) =>
      var existing := FindMessage(w.ledger, m.messageID);
      if existing.Some? && Compared(existing.value.message, m) == InLedger then w.(received := w.received + {m.messageID}) else w
    case Checkpoints(g, final, ids, failed) =>
      var p := w.gates[g].pending;
      var entries := Written(w.ledger, p, ids);
      w.(gates := w.gates[g := TakenFrom(w.gates[g], final)],
         ledger := w.ledger + entries,
         outbox := w.outbox + Completions(p, Verdicts(|p|, failed)),
         landed := LandedMore(w.landed, p[..|ids|], entries),
         unpublished := w.unpublished + Unpublished(p, failed),
         commits := w.commits + Numbers(p[..|ids|]))
    case Finishes(g) =>
      var p := w.gates[g].pending;
      w.(gates := w.gates[g := Finished(w.gates[g])], outbox := w.outbox + Completions(p, AllChanged(|p|)))
    case Completes(i) => w.(outbox := Without(w.outbox, i), replies := w.replies + [w.outbox[i]])
    case Releases(g) => w.(live := None)
    case OtherEntry(e) => w.(ledger := w.ledger + [e])
    case Confirms(id) => w.(confirmed := w.confirmed + {id})
  }

  function Pending(w: World): seq<Input> {
    if w.live.Some? && w.live.value in w.gates then w.gates[w.live.value].pending else []
  }

  // ---------- the gates ----------

  predicate GateSound(w: World, g: nat)
    requires g in w.gates
  {
    && (w.gates[g].pending != [] ==> w.gates[g].steering == Open && w.gates[g].signal.closed)
    && (w.gates[g].signal.closed && !w.gates[g].canceled ==> w.gates[g].pending != [])
    && (w.gates[g].canceled ==> w.gates[g].steering == Closed)
    && (w.gates[g].steering == Open ==> w.live == Some(g))
  }

  /** Only the live run can be open; inputs wait only at an open run, whose signal is closed exactly then until the run
      is stopped. */
  predicate GatesSound(w: World) {
    (w.live.Some? ==> w.live.value in w.gates) && forall g :: g in w.gates ==> GateSound(w, g)
  }

  lemma GatesKeep(w: World, step: Step)
    requires GatesSound(w) && Enabled(w, step)
    ensures GatesSound(Then(w, step))
  {
    var next := Then(w, step);
    forall g | g in next.gates
      ensures GateSound(next, g)
    {
      if g in w.gates { assert GateSound(w, g); }
    }
  }

  /** A run that has closed its gate never opens it again. */
  lemma ClosedForGood(w: World, step: Step, g: nat)
    requires Enabled(w, step) && g in w.gates && w.gates[g].steering == Closed
    ensures g in Then(w, step).gates && Then(w, step).gates[g].steering == Closed && Then(w, step).gates[g].runID == w.gates[g].runID
  {}

  predicate ShutAndEmpty(w: World, g: nat) {
    g in w.gates && w.gates[g].steering == Closed && w.gates[g].pending == []
  }

  lemma ShutStep(w: World, step: Step, g: nat)
    requires ShutAndEmpty(w, g) && Enabled(w, step)
    ensures ShutAndEmpty(Then(w, step), g)
    ensures step.SteerArrives? && step.run == g ==>
              Then(w, step).replies == w.replies + [Completion(step.ticket, Refusal(step.expected))]
    ensures step.Receives? && step.run == g ==> Then(w, step).gates == w.gates && Then(w, step).ledger == w.ledger
    ensures step.Checkpoints? && step.run == g ==> Then(w, step).ledger == w.ledger
  {
    hide Completions, LandedMore, Written, Verdicts, AllChanged, FindMessage, FindPending;
    if step.Receives? && step.run == g { assert w.gates[g := w.gates[g]] == w.gates; }
    if step.Checkpoints? && step.run == g { NothingWritten(w.ledger, step.ids); }
  }

  lemma NothingWritten(ledger: seq<Entry>, ids: seq<Id>)
    ensures |ids| <= 0 ==> ledger + Written(ledger, [], ids) == ledger
  {}

  /** Whatever happens after it, in any run of steps: nothing enters the gate of a run that an empty final
      checkpoint has closed.  A steer is answered at once, a report is left with its sender, and no later
      checkpoint of the run writes anything. */
  lemma {:induction false} ShutForGood(w: World, steps: seq<Step>, g: nat, k: nat)
    requires ShutAndEmpty(w, g) && Follows(w, steps) && k < |steps|
    ensures ShutAndEmpty(Run(w, steps), g)
    ensures Follows(w, steps[..k]) && Enabled(Run(w, steps[..k]), steps[k])
    ensures var now, step := Run(w, steps[..k]), steps[k];
            && (step.SteerArrives? && step.run == g ==>
                  Then(now, step).replies == now.replies + [Completion(step.ticket, Refusal(step.expected))])
            && (step.Receives? && step.run == g ==> Then(now, step).gates == now.gates && Then(now, step).ledger == now.ledger)
            && (step.Checkpoints? && step.run == g ==> Then(now, step).ledger == now.ledger)
    decreases |steps|
  {
    hide Enabled, Then, ShutAndEmpty;
    ShutStep(w, steps[0], g);
    var next, rest := Then(w, steps[0]), steps[1..];
    if k == 0 {
      assert steps[..0] == [];
      if rest != [] { ShutForGood(next, rest, g, 0); }
    } else {
      ShutForGood(next, rest, g, k - 1);
      assert steps[..k][0] == steps[0] && steps[..k][1..] == rest[..k-1];
    }
  }

  /** After an empty final checkpoint nothing is admitted: a steer is answered at once and a
      report is left with its sender. */
  lemma FinalCheckpointIsFinal(w: World, g: nat)
    requires w.live == Some(g) && g in w.gates && w.gates[g].pending == []
    ensures Enabled(w, Checkpoints(g, true, [], []))
    ensures var next := Then(w, Checkpoints(g, true, [], []));
            && next.gates[g].steering == Closed && next.ledger == w.ledger
            && (forall t, expected: Option<string>, m: Message :: Enabled(next, SteerArrives(g, t, expected, m)) ==>
                  Then(next, SteerArrives(g, t, expected, m)).gates == next.gates
                  && Then(next, SteerArrives(g, t, expected, m)).replies == next.replies + [Completion(t, Refusal(expected))])
            && (forall m: Message :: Enabled(next, Receives(g, m)) ==> Then(next, Receives(g, m)).gates == next.gates)
            && (forall steps :: Follows(next, steps) ==> ShutAndEmpty(Run(next, steps), g))
  {
    var next := Then(w, Checkpoints(g, true, [], []));
    assert Completions([], Verdicts(0, [])) == [];
    forall t, expected: Option<string>, m: Message | Enabled(next, SteerArrives(g, t, expected, m))
      ensures Then(next, SteerArrives(g, t, expected, m)).gates == next.gates
      ensures Then(next, SteerArrives(g, t, expected, m)).replies == next.replies + [Completion(t, Refusal(expected))]
    {}
    forall m: Message | Enabled(next, Receives(g, m))
      ensures Then(next, Receives(g, m)).gates == next.gates
    {
      assert next.gates[g := next.gates[g]] == next.gates;
    }
    forall steps | Follows(next, steps)
      ensures ShutAndEmpty(Run(next, steps), g)
    {
      if steps != [] { ShutForGood(next, steps, g, 0); }
    }
  }

  // ---------- every caller is answered once ----------

  function TicketBag(inputs: seq<Input>): multiset<nat> {
    if inputs == [] then multiset{}
    else TicketBag(inputs[..|inputs|-1]) + (if inputs[|inputs|-1].ticket.Some? then multiset{inputs[|inputs|-1].ticket.value} else multiset{})
  }

  function DoneBag(done: seq<Completion>): multiset<nat> {
    if done == [] then multiset{} else DoneBag(done[..|done|-1]) + multiset{done[|done|-1].ticket}
  }

  lemma {:induction false} DoneConcat(a: seq<Completion>, b: seq<Completion>)
    ensures DoneBag(a + b) == DoneBag(a) + DoneBag(b)
  {
    if b == [] {
      assert a + b == a;
    } else {
      assert (a + b)[..|a + b|-1] == a + b[..|b|-1];
      DoneConcat(a, b[..|b|-1]);
    }
  }

  lemma DoneOne(a: seq<Completion>, c: Completion)
    ensures DoneBag(a + [c]) == DoneBag(a) + multiset{c.ticket}
  {
    assert (a + [c])[..|a|] == a;
  }

  lemma DoneWithout(a: seq<Completion>, i: nat)
    requires i < |a|
    ensures DoneBag(a) == DoneBag(Without(a, i)) + multiset{a[i].ticket}
  {
    hide DoneBag;
    var x, y := a[..i], a[i+1..];
    assert a == (x + [a[i]]) + y;
    DoneConcat(x + [a[i]], y);
    DoneOne(x, a[i]);
    DoneConcat(x, y);
  }

  lemma IssueOne(issued: set<nat>, t: nat)
    requires t !in issued
    ensures multiset(issued + {t}) == multiset(issued) + multiset{t}
  {}

  lemma TicketOne(a: seq<Input>, x: Input)
    ensures TicketBag(a + [x]) == TicketBag(a) + (if x.ticket.Some? then multiset{x.ticket.value} else multiset{})
  {
    assert (a + [x])[..|a|] == a;
  }

  /** Deciding answers neither loses a waiting caller nor invents one. */
  lemma {:induction false} CompletionsCover(inputs: seq<Input>, answers: seq<Answer>)
    requires |inputs| == |answers|
    ensures DoneBag(Completions(inputs, answers)) == TicketBag(inputs)
  {
    if inputs != [] {
      var last := |inputs| - 1;
      CompletionsCover(inputs[..last], answers[..last]);
      var before := Completions(inputs[..last], answers[..last]);
      if inputs[last].ticket.Some? {
        DoneOne(before, Completion(inputs[last].ticket.value, answers[last]));
      } else {
        assert before + [] == before;
      }
    }
  }

  /** Every caller stands in exactly one place: waiting, about to be answered, or answered. */
  predicate Accounted(w: World) {
    TicketBag(Pending(w)) + DoneBag(w.outbox) + DoneBag(w.replies) == multiset(w.issued)
  }

  lemma AdmitAccounts(w: World, g: nat, input: Input, ticket: Option<nat>)
    requires GatesSound(w) && Accounted(w) && g in w.gates && w.gates[g].steering == Open && input.ticket == ticket
    requires ticket.Some? ==> ticket.value !in w.issued
    ensures var next := w.(gates := w.gates[g := AdmittedTo(w.gates[g], input)], counter := w.counter + 1,
                           issued := if ticket.Some? then w.issued + {ticket.value} else w.issued,
                           asked := if ticket.Some? then w.asked[ticket.value := input.message] else w.asked);
            Accounted(next)
  {
    assert GateSound(w, g);
    TicketOne(w.gates[g].pending, input);
    if ticket.Some? { IssueOne(w.issued, ticket.value); }
  }

  lemma RefuseAccounts(w: World, t: nat, answer: Answer)
    requires Accounted(w) && t !in w.issued
    ensures Accounted(w.(issued := w.issued + {t}, replies := w.replies + [Completion(t, answer)]))
  {
    DoneOne(w.replies, Completion(t, answer));
    IssueOne(w.issued, t);
  }

  lemma NoTickets()
    ensures TicketBag([]) == multiset{} && DoneBag(Completions([], [])) == multiset{}
  {}

  /** Taking all pending inputs of a run away and deciding their answers. */
  lemma EmptyAccounts(w: World, g: nat, gate: Gate, answers: seq<Answer>)
    requires GatesSound(w) && Accounted(w) && g in w.gates && gate.pending == [] && |answers| == |w.gates[g].pending|
    ensures Accounted(w.(gates := w.gates[g := gate], outbox := w.outbox + Completions(w.gates[g].pending, answers)))
  {
    hide DoneBag, TicketBag, Completions;
    assert GateSound(w, g);
    NoTickets();
    CompletionsCover(w.gates[g].pending, answers);
    DoneConcat(w.outbox, Completions(w.gates[g].pending, answers));
  }

  lemma ReceiveAccounts(w: World, g: nat, m: Message)
    requires GatesSound(w) && Accounted(w) && Enabled(w, Receives(g, m))
    ensures Accounted(Then(w, Receives(g, m)))
  {
    var (gate, r) := ReceivedBy(w.gates[g], w.ledger, m, w.counter);
    hide ReceivedBy, FindMessage, FindPending;
    if gate == w.gates[g] {
      assert w.gates[g := gate] == w.gates;
    } else {
      ReceiveAdmits(w.gates[g], w.ledger, m, w.counter);
      AdmitAccounts(w, g, Input(w.counter, None, m.(runID := w.gates[g].runID)), None);
    }
  }

  lemma ReceiveAdmits(gate: Gate, entries: seq<Entry>, m: Message, n: nat)
    ensures var (next, r) := ReceivedBy(gate, entries, m, n);
            next == gate || (gate.steering == Open && next == AdmittedTo(gate, Input(n, None, m.(runID := gate.runID)))
                             && FindMessage(entries, m.messageID).None? && FindPending(gate.pending, m.messageID).None?)
  {}

  lemma AccountsKeep(w: World, step: Step)
    requires GatesSound(w) && Accounted(w) && Enabled(w, step)
    ensures Accounted(Then(w, step))
  {
    hide TicketBag, DoneBag, Completions, Written, LandedMore, Verdicts;
    match step
    case SteerArrives(g, t, expected, m) =>
      if Admits(w.gates[g], expected) {
        AdmitAccounts(w, g, Input(w.counter, Some(t), m), Some(t));
      } else {
        RefuseAccounts(w, t, Refusal(expected));
      }
    case SteerFindsNone(t, expected) => RefuseAccounts(w, t, Refusal(expected));
    case Receives(g, m) => ReceiveAccounts(w, g, m);
    case Checkpoints(g, final, ids, failed) =>
      EmptyAccounts(w, g, TakenFrom(w.gates[g], final), Verdicts(|w.gates[g].pending|, failed));
    case Finishes(g) => EmptyAccounts(w, g, Finished(w.gates[g]), AllChanged(|w.gates[g].pending|));
    case Completes(i) =>
      DoneWithout(w.outbox, i);
      DoneOne(w.replies, w.outbox[i]);
    case Releases(g) => assert GateSound(w, g);
    case _ =>
  }

  // ---------- answers tell the truth ----------

  /** A completion says "written" exactly when the caller's input is in the ledger, and reports a failure of publishing
      exactly when there was one. */
  predicate TrueAnswer(landed: map<nat, Entry>, unpublished: set<nat>, c: Completion) {
    && (c.answer == Nil <==> c.ticket in landed && c.ticket !in unpublished)
    && (c.answer == PublishFailed <==> c.ticket in landed && c.ticket in unpublished)
  }

  predicate WaitingInput(w: World, i: Input) {
    i.ticket.Some? ==>
      && i.ticket.value !in w.landed && i.ticket.value !in w.unpublished && i.ticket.value in w.issued
      && i.ticket.value in w.asked && w.asked[i.ticket.value] == i.message
  }

  predicate LandedSound(w: World, t: nat)
    requires t in w.landed
  {
    t in w.issued && w.landed[t] in w.ledger && t in w.asked && w.landed[t].message == w.asked[t]
  }

  predicate Honest(w: World) {
    && (forall c :: c in w.outbox ==> TrueAnswer(w.landed, w.unpublished, c))
    && (forall c :: c in w.replies ==> TrueAnswer(w.landed, w.unpublished, c))
    && w.unpublished <= w.issued
    && (forall i :: i in Pending(w) ==> WaitingInput(w, i))
    && (forall t :: t in w.landed ==> LandedSound(w, t))
    && w.asked.Keys <= w.issued
  }

  lemma {:induction false} DoneCounts(done: seq<Completion>, c: Completion)
    requires c in done
    ensures DoneBag(done)[c.ticket] >= 1
  {
    if done[|done|-1] != c { DoneCounts(done[..|done|-1], c); }
  }

  lemma {:induction false} TicketCounts(inputs: seq<Input>, i: nat)
    requires i < |inputs| && inputs[i].ticket.Some?
    ensures TicketBag(inputs)[inputs[i].ticket.value] >= 1
  {
    if i < |inputs| - 1 { TicketCounts(inputs[..|inputs|-1], i); }
  }

  lemma {:induction false} TicketsApart(inputs: seq<Input>, i: nat, j: nat)
    requires i < j < |inputs| && inputs[i].ticket.Some? && inputs[j].ticket == inputs[i].ticket
    ensures TicketBag(inputs)[inputs[i].ticket.value] >= 2
  {
    var front := inputs[..|inputs|-1];
    if j == |inputs| - 1 {
      TicketCounts(front, i);
    } else {
      TicketsApart(front, i, j);
    }
  }

  /** No two waiting inputs, and no waiting input and decided answer, belong to one caller. */
  lemma OneEach(w: World, i: nat, t: nat)
    requires Accounted(w) && i < |Pending(w)| && Pending(w)[i].ticket == Some(t)
    ensures forall j :: 0 <= j < |Pending(w)| && j != i ==> Pending(w)[j].ticket != Some(t)
    ensures forall c :: c in w.outbox || c in w.replies ==> c.ticket != t
  {
    TicketCounts(Pending(w), i);
    assert multiset(w.issued)[t] <= 1;
    forall j | 0 <= j < |Pending(w)| && Pending(w)[j].ticket == Some(t)
      ensures j == i
    {
      if j < i { TicketsApart(Pending(w), j, i); } else if i < j { TicketsApart(Pending(w), i, j); }
    }
    forall c | c in w.outbox || c in w.replies
      ensures c.ticket != t
    {
      if c in w.outbox { DoneCounts(w.outbox, c); } else { DoneCounts(w.replies, c); }
    }
  }

  lemma {:induction false} LandedKeys(landed: map<nat, Entry>, inputs: seq<Input>, entries: seq<Entry>)
    requires |inputs| == |entries|
    ensures var more := LandedMore(landed, inputs, entries);
            && (forall t :: t in landed ==> t in more)
            && (forall i :: 0 <= i < |inputs| && inputs[i].ticket.Some? ==> inputs[i].ticket.value in more)
            && (forall t :: t in more ==>
                  (t in landed && more[t] == landed[t])
                  || exists i :: 0 <= i < |inputs| && inputs[i].ticket == Some(t) && more[t] == entries[i])
  {
    if inputs != [] {
      var last := |inputs| - 1;
      LandedKeys(landed, inputs[..last], entries[..last]);
      var before, more := LandedMore(landed, inputs[..last], entries[..last]), LandedMore(landed, inputs, entries);
      forall i | 0 <= i < |inputs| && inputs[i].ticket.Some?
        ensures inputs[i].ticket.value in more
      {
        if i < last { assert inputs[..last][i] == inputs[i]; }
      }
      forall t | t in more
        ensures (t in landed && more[t] == landed[t])
                || exists i :: 0 <= i < |inputs| && inputs[i].ticket == Some(t) && more[t] == entries[i]
      {
        if inputs[last].ticket == Some(t) {
        } else if t in landed && before[t] == landed[t] {
        } else {
          var i :| 0 <= i < last && inputs[..last][i].ticket == Some(t) && before[t] == entries[..last][i];
          assert inputs[i].ticket == Some(t) && more[t] == entries[i];
        }
      }
    }
  }

  lemma {:induction false} CompletionFrom(inputs: seq<Input>, answers: seq<Answer>, c: Completion)
    requires |inputs| == |answers| && c in Completions(inputs, answers)
    ensures exists i :: 0 <= i < |inputs| && inputs[i].ticket == Some(c.ticket) && answers[i] == c.answer
  {
    var last := |inputs| - 1;
    if c in Completions(inputs[..last], answers[..last]) {
      CompletionFrom(inputs[..last], answers[..last], c);
      var i :| 0 <= i < last && inputs[..last][i].ticket == Some(c.ticket) && answers[..last][i] == c.answer;
      assert inputs[i].ticket == Some(c.ticket) && answers[i] == c.answer;
    } else {
      assert inputs[last].ticket == Some(c.ticket) && answers[last] == c.answer;
    }
  }

  /** The caller of input `i` counts as landed after the checkpoint exactly if `i` was written. */
  lemma LandedIndex(w: World, k: nat, entries: seq<Entry>, i: nat)
    requires Accounted(w) && Honest(w) && i < |Pending(w)| && Pending(w)[i].ticket.Some? && k == |entries| <= |Pending(w)|
    ensures Pending(w)[i].ticket.value in LandedMore(w.landed, Pending(w)[..k], entries) <==> i < k
  {
    var p, t := Pending(w), Pending(w)[i].ticket.value;
    LandedKeys(w.landed, p[..k], entries);
    OneEach(w, i, t);
    assert p[i] in p && WaitingInput(w, p[i]);
    if i < k { assert p[..k][i] == p[i]; }
    hide Accounted, LandedMore, Honest, Pending;
    forall j | 0 <= j < k && p[..k][j].ticket == Some(t)
      ensures i < k
    {
      assert p[j].ticket == Some(t);
    }
  }

  lemma NewAnswersTrue(w: World, g: nat, ids: seq<Id>, failed: seq<bool>, final: bool)
    requires GatesSound(w) && Accounted(w) && Honest(w) && Enabled(w, Checkpoints(g, final, ids, failed))
    ensures var next := Then(w, Checkpoints(g, final, ids, failed));
            && (forall c :: c in next.outbox ==> TrueAnswer(next.landed, next.unpublished, c))
            && (forall c :: c in next.replies ==> TrueAnswer(next.landed, next.unpublished, c))
  {
    var next := Then(w, Checkpoints(g, final, ids, failed));
    var p, entries, answers := Pending(w), Written(w.ledger, Pending(w), ids), Verdicts(|Pending(w)|, failed);
    LandedKeys(w.landed, p[..|ids|], entries);
    hide Written, LandedMore, Completions, Accounted, Honest;
    hide Unpublished;
    forall c | c in w.outbox || c in w.replies
      ensures TrueAnswer(next.landed, next.unpublished, c)
    {
      OldAnswerTrue(w, |ids|, entries, failed, c);
    }
    forall c | c in Completions(p, answers)
      ensures TrueAnswer(next.landed, next.unpublished, c)
    {
      CompletionFrom(p, answers, c);
      var i :| 0 <= i < |p| && p[i].ticket == Some(c.ticket) && answers[i] == c.answer;
      LandedIndex(w, |ids|, entries, i);
      UnpublishedIndex(w, failed, i);
    }
  }

  /** The caller of input `i` counts as unpublished exactly if publishing failed for `i`. */
  lemma UnpublishedIndex(w: World, failed: seq<bool>, i: nat)
    requires Accounted(w) && Honest(w) && i < |Pending(w)| && Pending(w)[i].ticket.Some? && |failed| <= |Pending(w)|
    ensures Pending(w)[i].ticket.value in w.unpublished + Unpublished(Pending(w), failed) <==> i < |failed| && failed[i]
  {
    OneEach(w, i, Pending(w)[i].ticket.value);
    assert Pending(w)[i] in Pending(w) && WaitingInput(w, Pending(w)[i]);
    hide Accounted, Honest, Pending;
  }

  lemma OldAnswerTrue(w: World, k: nat, entries: seq<Entry>, failed: seq<bool>, c: Completion)
    requires Accounted(w) && Honest(w) && (c in w.outbox || c in w.replies) && k == |entries| == |failed| <= |Pending(w)|
    ensures TrueAnswer(LandedMore(w.landed, Pending(w)[..k], entries), w.unpublished + Unpublished(Pending(w), failed), c)
  {
    var p := Pending(w);
    LandedKeys(w.landed, p[..k], entries);
    assert TrueAnswer(w.landed, w.unpublished, c);
    forall i | 0 <= i < k
      ensures p[..k][i].ticket != Some(c.ticket) && p[i].ticket != Some(c.ticket)
    {
      if p[i].ticket.Some? { OneEach(w, i, p[i].ticket.value); }
    }
    hide Accounted, LandedMore, Honest, Pending;
  }

  lemma UnpublishedIssued(w: World, failed: seq<bool>)
    requires Honest(w) && |failed| <= |Pending(w)|
    ensures Unpublished(Pending(w), failed) <= w.issued
  {
    hide Pending;
    forall i | 0 <= i < |failed| && failed[i] && Pending(w)[i].ticket.Some?
      ensures Pending(w)[i].ticket.value in w.issued
    {
      assert Pending(w)[i] in Pending(w);
    }
  }

  lemma CheckpointHonest(w: World, g: nat, ids: seq<Id>, failed: seq<bool>, final: bool)
    requires GatesSound(w) && Accounted(w) && Honest(w) && Enabled(w, Checkpoints(g, final, ids, failed))
    ensures Honest(Then(w, Checkpoints(g, final, ids, failed)))
  {
    var next := Then(w, Checkpoints(g, final, ids, failed));
    var p, entries := Pending(w), Written(w.ledger, Pending(w), ids);
    NewAnswersTrue(w, g, ids, failed, final);
    LandedKeys(w.landed, p[..|ids|], entries);
    assert Pending(next) == [];
    UnpublishedIssued(w, failed);
    hide Written, LandedMore, Completions, Accounted, Unpublished, TrueAnswer, TakenFrom, GatesSound;
    forall t | t in next.landed
      ensures LandedSound(next, t)
    {
      if t in w.landed && next.landed[t] == w.landed[t] {
        assert LandedSound(w, t);
      } else {
        var i :| 0 <= i < |ids| && p[..|ids|][i].ticket == Some(t) && next.landed[t] == entries[i];
        assert p[i] in p && WaitingInput(w, p[i]);
        assert entries[i] in entries;
      }
    }
  }

  lemma FinishHonest(w: World, g: nat)
    requires GatesSound(w) && Honest(w) && Enabled(w, Finishes(g))
    ensures Honest(Then(w, Finishes(g)))
  {
    var next := Then(w, Finishes(g));
    var p := w.gates[g].pending;
    assert GateSound(w, g);
    forall i | i in Pending(next)
      ensures WaitingInput(next, i)
    {
      assert i in Pending(w);
    }
    hide Completions;
    forall c | c in Completions(p, AllChanged(|p|))
      ensures TrueAnswer(next.landed, next.unpublished, c)
    {
      CompletionFrom(p, AllChanged(|p|), c);
      var i :| 0 <= i < |p| && p[i].ticket == Some(c.ticket) && AllChanged(|p|)[i] == c.answer;
      assert p[i] in Pending(w);
    }
    forall t | t in next.landed
      ensures LandedSound(next, t)
    {
      assert LandedSound(w, t);
    }
  }

  lemma ReceiveHonest(w: World, g: nat, m: Message)
    requires GatesSound(w) && Honest(w) && Enabled(w, Receives(g, m))
    ensures Honest(Then(w, Receives(g, m)))
  {
    var next := Then(w, Receives(g, m));
    assert GateSound(w, g);
    ReceiveAdmits(w.gates[g], w.ledger, m, w.counter);
    hide ReceivedBy, FindMessage, FindPending;
    forall i | i in Pending(next)
      ensures WaitingInput(next, i)
    {
      if i in Pending(w) { assert WaitingInput(w, i); }
    }
    forall t | t in next.landed
      ensures LandedSound(next, t)
    {
      assert LandedSound(w, t);
    }
  }

  /** The remaining steps write nothing for a waiting caller. */
  lemma QuietHonest(w: World, step: Step)
    requires GatesSound(w) && Honest(w) && Enabled(w, step)
    requires !step.Checkpoints? && !step.Finishes? && !step.Receives?
    ensures Honest(Then(w, step))
  {
    var next := Then(w, step);
    if step.SteerArrives? { assert GateSound(w, step.run); }
    forall i | i in Pending(next)
      ensures WaitingInput(next, i)
    {
      if i in Pending(w) { assert WaitingInput(w, i); }
    }
    forall t | t in next.landed
      ensures LandedSound(next, t)
    {
      assert LandedSound(w, t);
    }
  }

  // ---------- order ----------

  predicate Increasing(n: seq<nat>) {
    forall i, j :: 0 <= i < j < |n| ==> n[i] < n[j]
  }

  /** What is written and what waits, taken together, is in the order of admission. */
  predicate InOrder(w: World) {
    var all := w.commits + Numbers(Pending(w));
    Increasing(all) && forall n :: n in all ==> n < w.counter
  }

  lemma OrderOf(commits: seq<nat>, waiting: seq<nat>, counter: nat, moved: nat)
    requires Increasing(commits + waiting) && (forall n :: n in commits + waiting ==> n < counter) && moved <= |waiting|
    ensures Increasing(commits + waiting[..moved] + []) && forall n :: n in commits + waiting[..moved] + [] ==> n < counter
    ensures Increasing(commits + []) && forall n :: n in commits + [] ==> n < counter
    ensures Increasing(commits + (waiting + [counter])) && forall n :: n in commits + (waiting + [counter]) ==> n < counter + 1
  {
    var all := commits + waiting;
    assert commits + waiting[..moved] + [] == all[..|commits| + moved];
    assert commits + [] == all[..|commits|];
    PrefixOf(all, |commits| + moved);
    PrefixOf(all, |commits|);
    var more := commits + (waiting + [counter]);
    assert more == all + [counter];
    forall i, j | 0 <= i < j < |more|
      ensures more[i] < more[j]
    {
      assert all[i] in all;
    }
  }

  lemma PrefixOf(all: seq<nat>, k: nat)
    requires k <= |all| && Increasing(all)
    ensures Increasing(all[..k]) && forall n :: n in all[..k] ==> n in all
  {}

  lemma CheckpointOrder(w: World, g: nat, final: bool, ids: seq<Id>, failed: seq<bool>)
    requires GatesSound(w) && InOrder(w) && Enabled(w, Checkpoints(g, final, ids, failed))
    ensures InOrder(Then(w, Checkpoints(g, final, ids, failed)))
  {
    var waiting := Numbers(Pending(w));
    hide Written, LandedMore, Completions, Verdicts, Increasing;
    OrderOf(w.commits, waiting, w.counter, |ids|);
    assert Numbers(Pending(w)[..|ids|]) == waiting[..|ids|];
    assert Numbers([]) == [];
  }

  lemma OrderKeeps(w: World, step: Step)
    requires GatesSound(w) && InOrder(w) && Enabled(w, step)
    ensures InOrder(Then(w, step))
  {
    var next, waiting := Then(w, step), Numbers(Pending(w));
    hide Written, LandedMore, Completions, FindMessage, FindPending, Increasing;
    OrderOf(w.commits, waiting, w.counter, 0);
    match step
    case SteerArrives(g, _, _, _) =>
      assert GateSound(w, g);
      assert Numbers(Pending(next)) == waiting || Numbers(Pending(next)) == waiting + [w.counter];
    case Receives(g, m) =>
      assert GateSound(w, g);
      ReceiveAdmits(w.gates[g], w.ledger, m, w.counter);
      hide ReceivedBy;
      assert Numbers(Pending(next)) == waiting || Numbers(Pending(next)) == waiting + [w.counter];
    case Checkpoints(g, final, ids, failed) => CheckpointOrder(w, g, final, ids, failed);
    case Finishes(g) =>
      assert GateSound(w, g);
      assert Numbers(Pending(next)) == [] || Pending(next) == Pending(w);
    case Releases(g) =>
      assert GateSound(w, g);
      assert Numbers(Pending(next)) == [];
    case Begins(g, _) => assert Numbers(Pending(next)) == [] == waiting;
    case Opens(g, _) => assert Pending(next) == Pending(w);
    case _ =>
  }

  // ---------- reports arrive once ----------

  function LedgerIDs(entries: seq<Entry>): (ids: seq<string>)
    ensures |ids| == |entries| && forall i :: 0 <= i < |ids| ==> ids[i] == entries[i].message.messageID
  {
    seq(|entries|, i requires 0 <= i < |entries| => entries[i].message.messageID)
  }

  function PendingIDs(inputs: seq<Input>): (ids: seq<string>)
    ensures |ids| == |inputs| && forall i :: 0 <= i < |ids| ==> ids[i] == inputs[i].message.messageID
  {
    seq(|inputs|, i requires 0 <= i < |inputs| => inputs[i].message.messageID)
  }

  /** Every message identity occurs at most once in the ledger and the waiting inputs together. */
  ghost predicate AtMostOnce(all: multiset<string>) {
    forall id :: id != "" ==> all[id] <= 1
  }

  ghost predicate Delivered(w: World) {
    && AtMostOnce(multiset(LedgerIDs(w.ledger)) + multiset(PendingIDs(Pending(w))))
    && (forall id :: id in w.received ==> id in LedgerIDs(w.ledger))
    && w.confirmed <= w.received
  }

  lemma LedgerGrows(ledger: seq<Entry>, more: seq<Entry>)
    ensures LedgerIDs(ledger + more) == LedgerIDs(ledger) + LedgerIDs(more)
    ensures multiset(LedgerIDs(ledger + more)) == multiset(LedgerIDs(ledger)) + multiset(LedgerIDs(more))
  {
    assert LedgerIDs(ledger + more) == LedgerIDs(ledger) + LedgerIDs(more);
  }

  lemma PendingGrows(p: seq<Input>, i: Input)
    ensures multiset(PendingIDs(p + [i])) == multiset(PendingIDs(p)) + multiset{i.message.messageID}
  {
    assert PendingIDs(p + [i]) == PendingIDs(p) + [i.message.messageID];
  }

  lemma MoveIDs(ledger: seq<string>, waiting: seq<string>, k: nat)
    requires k <= |waiting| && AtMostOnce(multiset(ledger) + multiset(waiting))
    ensures AtMostOnce(multiset(ledger + waiting[..k]) + multiset{})
  {
    assert waiting == waiting[..k] + waiting[k..];
    assert multiset(ledger + waiting[..k]) == multiset(ledger) + multiset(waiting[..k]);
    var all := multiset(ledger) + multiset(waiting);
    forall id: string | id != ""
      ensures (multiset(ledger + waiting[..k]) + multiset{})[id] <= 1
    {
      assert all[id] <= 1;
      assert multiset(waiting)[id] == multiset(waiting[..k])[id] + multiset(waiting[k..])[id];
    }
  }

  lemma AddID(ledger: multiset<string>, waiting: multiset<string>, id: string)
    requires AtMostOnce(ledger + waiting) && (id == "" || (id !in ledger && id !in waiting))
    ensures AtMostOnce(ledger + (waiting + multiset{id})) && (id == "" ==> AtMostOnce((ledger + multiset{id}) + waiting))
    ensures AtMostOnce(ledger + multiset{})
  {
    var all := ledger + waiting;
    forall x: string | x != ""
      ensures (ledger + (waiting + multiset{id}))[x] <= 1
      ensures id == "" ==> ((ledger + multiset{id}) + waiting)[x] <= 1
      ensures (ledger + multiset{})[x] <= 1
    {
      assert all[x] <= 1;
    }
  }

  lemma CheckpointDelivers(w: World, g: nat, ids: seq<Id>, failed: seq<bool>, final: bool)
    requires GatesSound(w) && Delivered(w) && Enabled(w, Checkpoints(g, final, ids, failed))
    ensures Delivered(Then(w, Checkpoints(g, final, ids, failed)))
  {
    var next := Then(w, Checkpoints(g, final, ids, failed));
    var p, entries := Pending(w), Written(w.ledger, Pending(w), ids);
    hide LandedMore, Completions, Verdicts, GatesSound, AtMostOnce;
    LedgerGrows(w.ledger, entries);
    assert LedgerIDs(entries) == PendingIDs(p)[..|ids|];
    assert PendingIDs(Pending(next)) == [];
    hide LedgerIDs, PendingIDs, Written;
    MoveIDs(LedgerIDs(w.ledger), PendingIDs(p), |ids|);
  }

  lemma ReceiveEffect(w: World, g: nat, m: Message)
    requires Enabled(w, Receives(g, m))
    ensures var x := ReceivedBy(w.gates[g], w.ledger, m, w.counter);
            Then(w, Receives(g, m))
            == w.(gates := w.gates[g := x.0], counter := w.counter + 1, received := if x.1 == InLedger then w.received + {m.messageID} else w.received)
  {
    hide ReceivedBy;
  }

  lemma ReceiveDelivers(w: World, g: nat, m: Message)
    requires GatesSound(w) && Delivered(w) && Enabled(w, Receives(g, m))
    ensures Delivered(Then(w, Receives(g, m)))
  {
    var next := Then(w, Receives(g, m));
    var p := w.gates[g].pending;
    assert GateSound(w, g);
    ReceiveAdmits(w.gates[g], w.ledger, m, w.counter);
    FoundInLedger(w.ledger, m.messageID);
    FoundPending(p, m.messageID);
    var (gate, r) := ReceivedBy(w.gates[g], w.ledger, m, w.counter);
    assert r == InLedger ==> FindMessage(w.ledger, m.messageID).Some?;
    ReceiveEffect(w, g, m);
    hide Then, Enabled, ReceivedBy, FindMessage, FindPending, LedgerIDs, PendingIDs, AtMostOnce;
    if gate == w.gates[g] {
      assert w.gates[g := gate] == w.gates;
    } else {
      PendingGrows(p, Input(w.counter, None, m.(runID := w.gates[g].runID)));
      AddID(multiset(LedgerIDs(w.ledger)), multiset(PendingIDs(p)), m.messageID);
    }
  }

  lemma FoundInLedger(entries: seq<Entry>, id: string)
    ensures FindMessage(entries, id).Some? <==> id in LedgerIDs(entries)
  {
    if FindMessage(entries, id).Some? {
      var k :| 0 <= k < |entries| && entries[k] == FindMessage(entries, id).value;
      assert LedgerIDs(entries)[k] == id;
    }
  }

  lemma FoundPending(p: seq<Input>, id: string)
    ensures FindPending(p, id).None? ==> id !in PendingIDs(p)
  {}

  lemma SteerDelivers(w: World, step: Step)
    requires GatesSound(w) && Delivered(w) && Enabled(w, step) && step.SteerArrives?
    ensures Delivered(Then(w, step))
  {
    hide LedgerIDs, PendingIDs, AtMostOnce;
    assert GateSound(w, step.run);
    PendingGrows(w.gates[step.run].pending, Input(w.counter, Some(step.ticket), step.message));
    AddID(multiset(LedgerIDs(w.ledger)), multiset(PendingIDs(Pending(w))), "");
  }

  lemma OtherDelivers(w: World, step: Step)
    requires Delivered(w) && Enabled(w, step) && step.OtherEntry?
    ensures Delivered(Then(w, step))
  {
    LedgerGrows(w.ledger, [step.entry]);
    assert LedgerIDs([step.entry]) == [""];
    hide LedgerIDs, PendingIDs, AtMostOnce;
    AddID(multiset(LedgerIDs(w.ledger)), multiset(PendingIDs(Pending(w))), "");
  }

  lemma QuietDelivers(w: World, step: Step)
    requires GatesSound(w) && Delivered(w) && Enabled(w, step)
    requires !step.Checkpoints? && !step.Receives? && !step.SteerArrives? && !step.OtherEntry?
    ensures Delivered(Then(w, step))
  {
    var next := Then(w, step);
    QuietPending(w, step);
    assert PendingIDs([]) == [];
    if step.LooksUp? { FoundInLedger(w.ledger, step.message.messageID); }
    hide LedgerIDs, PendingIDs, FindMessage, Completions, Pending, AtMostOnce;
    AddID(multiset(LedgerIDs(w.ledger)), multiset(PendingIDs(Pending(w))), "");
  }

  lemma QuietPending(w: World, step: Step)
    requires GatesSound(w) && Enabled(w, step)
    requires !step.Checkpoints? && !step.Receives? && !step.SteerArrives?
    ensures Pending(Then(w, step)) == Pending(w) || Pending(Then(w, step)) == []
  {
    if step.Finishes? || step.Releases? { assert GateSound(w, step.run); }
  }

  lemma DeliveryKeeps(w: World, step: Step)
    requires GatesSound(w) && Delivered(w) && Enabled(w, step)
    ensures Delivered(Then(w, step))
  {
    hide *;
    match step
    case Checkpoints(g, final, ids, failed) => CheckpointDelivers(w, g, ids, failed, final);
    case Receives(g, m) => ReceiveDelivers(w, g, m);
    case SteerArrives(_, _, _, _) => SteerDelivers(w, step);
    case OtherEntry(_) => OtherDelivers(w, step);
    case _ => QuietDelivers(w, step);
  }

  // ---------- all runs ----------

  ghost predicate Inv(w: World) {
    GatesSound(w) && Accounted(w) && Honest(w) && InOrder(w) && Delivered(w)
  }

  lemma StepKeeps(w: World, step: Step)
    requires Inv(w) && Enabled(w, step)
    ensures Inv(Then(w, step))
  {
    hide GatesSound, Accounted, Honest, InOrder, Delivered, Then, Enabled;
    GatesKeep(w, step);
    AccountsKeep(w, step);
    OrderKeeps(w, step);
    DeliveryKeeps(w, step);
    match step
    case Checkpoints(g, final, ids, failed) => CheckpointHonest(w, g, ids, failed, final);
    case Finishes(g) => FinishHonest(w, g);
    case Receives(g, m) => ReceiveHonest(w, g, m);
    case _ => QuietHonest(w, step);
  }

  predicate Follows(w: World, steps: seq<Step>)
    decreases |steps|
  {
    steps == [] || (Enabled(w, steps[0]) && Follows(Then(w, steps[0]), steps[1..]))
  }

  function Run(w: World, steps: seq<Step>): World
    requires Follows(w, steps)
    decreases |steps|
  {
    if steps == [] then w else Run(Then(w, steps[0]), steps[1..])
  }

  /** A process that has just started, on a ledger that may already hold reports. */
  function Start(ledger: seq<Entry>): World {
    World(map[], None, ledger, 0, {}, [], [], map[], map[], {}, [], {}, {})
  }

  lemma {:induction false} RunKeeps(w: World, steps: seq<Step>)
    requires Inv(w) && Follows(w, steps)
    ensures Inv(Run(w, steps))
    decreases |steps|
  {
    hide Inv, Then, Enabled;
    if steps != [] {
      StepKeeps(w, steps[0]);
      RunKeeps(Then(w, steps[0]), steps[1..]);
    }
  }

  /** In every interleaving of callers, reports, checkpoints and run changes: each caller is in
      exactly one place; a nil answer means that the caller's very message is in the ledger and
      "run changed" that it is not; what reaches the ledger does so in the order of admission;
      while a run is open its loop's signal is closed exactly when inputs wait; a written input is answered nil unless
      publishing it failed, and then with that error; and each report is there at most once,
      acknowledged and remembered as confirmed only when it is. */
  lemma Promises(ledger: seq<Entry>, steps: seq<Step>)
    requires AtMostOnce(multiset(LedgerIDs(ledger))) && Follows(Start(ledger), steps)
    ensures var w := Run(Start(ledger), steps);
            && (forall t :: t in w.issued ==> TicketBag(Pending(w))[t] + DoneBag(w.outbox)[t] + DoneBag(w.replies)[t] == 1)
            && (forall c :: c in w.replies && c.answer == Nil ==>
                  c.ticket in w.landed && w.landed[c.ticket] in w.ledger
                  && c.ticket in w.asked && w.landed[c.ticket].message == w.asked[c.ticket])
            && (forall c :: c in w.replies && c.answer == RunChanged ==> c.ticket !in w.landed)
            && (forall c :: c in w.replies && c.ticket in w.landed ==> c.answer == if c.ticket in w.unpublished then PublishFailed else Nil)
            && Increasing(w.commits)
            && (Pending(w) != [] ==> w.live.Some? && w.live.value in w.gates
                                     && w.gates[w.live.value].steering == Open && w.gates[w.live.value].signal.closed)
            && (w.live.Some? && w.live.value in w.gates && w.gates[w.live.value].steering == Open ==>
                  (w.gates[w.live.value].signal.closed <==> Pending(w) != []))
            && AtMostOnce(multiset(LedgerIDs(w.ledger)) + multiset(PendingIDs(Pending(w))))
            && (forall id :: id in w.received || id in w.confirmed ==> id in LedgerIDs(w.ledger))
  {
    StartInv(ledger);
    RunKeeps(Start(ledger), steps);
    var w := Run(Start(ledger), steps);
    hide Run, TicketBag, DoneBag, LedgerIDs, PendingIDs;
    assert w.live.Some? ==> GateSound(w, w.live.value);
    assert forall t :: t in w.issued ==> (TicketBag(Pending(w)) + DoneBag(w.outbox) + DoneBag(w.replies))[t] == multiset(w.issued)[t];
    forall c | c in w.replies && c.answer == Nil
      ensures c.ticket in w.landed && LandedSound(w, c.ticket)
    {
      assert TrueAnswer(w.landed, w.unpublished, c);
    }
    forall c | c in w.replies
      ensures c.answer == RunChanged ==> c.ticket !in w.landed
      ensures c.ticket in w.landed ==> c.answer == if c.ticket in w.unpublished then PublishFailed else Nil
    {
      assert TrueAnswer(w.landed, w.unpublished, c);
    }
    var all := w.commits + Numbers(Pending(w));
    assert forall i :: 0 <= i < |w.commits| ==> all[i] == w.commits[i];
  }

  lemma StartInv(ledger: seq<Entry>)
    requires AtMostOnce(multiset(LedgerIDs(ledger)))
    ensures Inv(Start(ledger))
  {
    var w := Start(ledger);
    assert PendingIDs(Pending(w)) == [];
  }

  // ---------- nobody is kept waiting ----------

  lemma {:induction false} CompletionAt(inputs: seq<Input>, answers: seq<Answer>, i: nat)
    requires |inputs| == |answers| && i < |inputs| && inputs[i].ticket.Some?
    ensures Completion(inputs[i].ticket.value, answers[i]) in Completions(inputs, answers)
  {
    var last := |inputs| - 1;
    if i < last { CompletionAt(inputs[..last], answers[..last], i); }
  }

  /** What a checkpoint decides for each caller: whose input was written is told so, with the failure of publishing if there
      was one, and whose input the ledger did not get to is told that. */
  lemma CheckpointAnswers(w: World, g: nat, final: bool, ids: seq<Id>, failed: seq<bool>, i: nat)
    requires Inv(w) && Enabled(w, Checkpoints(g, final, ids, failed)) && i < |Pending(w)| && Pending(w)[i].ticket.Some?
    ensures var next, t := Then(w, Checkpoints(g, final, ids, failed)), Pending(w)[i].ticket.value;
            && (i >= |ids| ==> Completion(t, AppendFailed) in next.outbox && t !in next.landed)
            && (i < |ids| ==>
                  && Completion(t, if failed[i] then PublishFailed else Nil) in next.outbox
                  && t in next.landed && next.landed[t] in next.ledger && next.landed[t].message == Pending(w)[i].message)
  {
    var next, t := Then(w, Checkpoints(g, final, ids, failed)), Pending(w)[i].ticket.value;
    CompletionAt(Pending(w), Verdicts(|Pending(w)|, failed), i);
    LandedIndex(w, |ids|, Written(w.ledger, Pending(w), ids), i);
    assert Pending(w)[i] in Pending(w) && WaitingInput(w, Pending(w)[i]);
    StepKeeps(w, Checkpoints(g, final, ids, failed));
    assert t in next.landed ==> LandedSound(next, t);
    hide Completions, LandedMore, Written, GatesSound, Accounted, InOrder, Delivered;
  }

  lemma CheckpointGate(w: World, g: nat, final: bool, ids: seq<Id>, failed: seq<bool>)
    requires Enabled(w, Checkpoints(g, final, ids, failed))
    ensures var next := Then(w, Checkpoints(g, final, ids, failed));
            && next.gates == w.gates[g := TakenFrom(w.gates[g], final)]
            && next.ledger == w.ledger + Written(w.ledger, w.gates[g].pending, ids)
  {
    hide Completions, LandedMore, Written, Verdicts, Unpublished;
  }

  /** Stopping a run tells everyone who waits at it. */
  lemma FinishAnswers(w: World, g: nat, i: nat)
    requires Inv(w) && Enabled(w, Finishes(g)) && i < |w.gates[g].pending| && w.gates[g].pending[i].ticket.Some?
    ensures Completion(w.gates[g].pending[i].ticket.value, RunChanged) in Then(w, Finishes(g)).outbox
    ensures Then(w, Finishes(g)).gates[g].pending == []
  {
    CompletionAt(w.gates[g].pending, AllChanged(|w.gates[g].pending|), i);
    hide Completions, Inv;
  }

  lemma SteerEffect(w: World, g: nat, t: nat, expected: Option<string>, m: Message)
    requires Inv(w) && Enabled(w, SteerArrives(g, t, expected, m))
    requires w.gates[g].steering == Open && (expected.Some? ==> expected.value == w.gates[g].runID)
    ensures var met := Then(w, SteerArrives(g, t, expected, m));
            && met.live == Some(g) && met.replies == w.replies && g in met.gates
            && met.gates[g] == AdmittedTo(w.gates[g], Input(w.counter, Some(t), m)) && Pending(met) == met.gates[g].pending
  {
    assert GateSound(w, g);
    hide GatesSound, Accounted, Honest, InOrder, Delivered;
  }

  /** A steer to the open run it means is let in, and the next checkpoint that writes everything puts its message into the
      ledger and answers it; the run stays open. */
  lemma SteerLands(w: World, g: nat, t: nat, expected: Option<string>, m: Message, final: bool, ids: seq<Id>, failed: seq<bool>)
    requires Inv(w) && Enabled(w, SteerArrives(g, t, expected, m))
    requires w.gates[g].steering == Open && (expected.Some? ==> expected.value == w.gates[g].runID)
    requires var met := Then(w, SteerArrives(g, t, expected, m));
             Enabled(met, Checkpoints(g, final, ids, failed)) && |ids| == |met.gates[g].pending|
    ensures var met := Then(w, SteerArrives(g, t, expected, m));
            var next := Then(met, Checkpoints(g, final, ids, failed));
            && met.replies == w.replies && met.gates[g].signal.closed
            && (exists a :: a in {Nil, PublishFailed} && (a == PublishFailed <==> failed[|met.gates[g].pending|-1]) && Completion(t, a) in next.outbox)
            && t in next.landed && next.landed[t] in next.ledger && next.landed[t].message == m
            && next.gates[g].steering == Open
  {
    var met := Then(w, SteerArrives(g, t, expected, m));
    SteerEffect(w, g, t, expected, m);
    StepKeeps(w, SteerArrives(g, t, expected, m));
    CheckpointGate(met, g, final, ids, failed);
    var last := |Pending(met)| - 1;
    assert Pending(met)[last] == Input(w.counter, Some(t), m);
    CheckpointAnswers(met, g, final, ids, failed, last);
    hide Inv, Then, Enabled, Pending, Written;
  }

  lemma CountTwice(s: seq<string>, a: nat, b: nat)
    requires a < b < |s| && s[a] == s[b]
    ensures multiset(s)[s[a]] >= 2
  {
    assert s == s[..b] + s[b..] && s[..b][a] == s[a] && s[b..][0] == s[a];
  }

  lemma OneWithID(entries: seq<Entry>, id: string, i: nat, j: nat)
    requires id != "" && AtMostOnce(multiset(LedgerIDs(entries)))
    requires i < |entries| && j < |entries| && entries[i].message.messageID == id && entries[j].message.messageID == id
    ensures i == j
  {
    var s := LedgerIDs(entries);
    if i < j { CountTwice(s, i, j); } else if j < i { CountTwice(s, j, i); }
  }

  lemma ReportEffect(w: World, g: nat, m: Message)
    requires Inv(w) && Enabled(w, Receives(g, m)) && w.gates[g].steering == Open
    requires !Knows(w.ledger, m.messageID) && !Waits(w.gates[g].pending, m.messageID)
    ensures var met := Then(w, Receives(g, m));
            && met.live == Some(g) && met.ledger == w.ledger && g in w.gates && g in met.gates
            && met.gates[g] == AdmittedTo(w.gates[g], Input(w.counter, None, m.(runID := w.gates[g].runID)))
  {
    ReceiveMeans(w.gates[g], w.ledger, m, w.counter);
    ReceiveEffect(w, g, m);
    assert GateSound(w, g);
    hide ReceivedBy, Then, GatesSound, Accounted, Honest, InOrder, Delivered;
  }

  lemma MayReceive(w: World, next: World, g: nat, m: Message)
    requires Enabled(w, Receives(g, m)) && g in next.gates
    ensures Enabled(next, Receives(g, m))
  {}

  /** A report that neither the ledger nor an input holds is let in by an open run; the next checkpoint that writes
      everything puts it into the ledger, and then its sender is told so. */
  lemma ReportLands(w: World, g: nat, m: Message, final: bool, ids: seq<Id>, failed: seq<bool>)
    requires Inv(w) && Enabled(w, Receives(g, m)) && w.gates[g].steering == Open
    requires !Knows(w.ledger, m.messageID) && !Waits(w.gates[g].pending, m.messageID)
    requires var met := Then(w, Receives(g, m));
             Enabled(met, Checkpoints(g, final, ids, failed)) && |ids| == |met.gates[g].pending|
    ensures var met := Then(w, Receives(g, m));
            var next := Then(met, Checkpoints(g, final, ids, failed));
            && met.gates[g].signal.closed && g in next.gates && next.gates[g].steering == Open
            && (exists e :: e in next.ledger && FromSameRun(e.message, m))
            && Enabled(next, Receives(g, m)) && m.messageID in Then(next, Receives(g, m)).received
  {
    hide Inv, Then, Enabled, Written, Knows, Waits;
    var met := Then(w, Receives(g, m));
    ReportEffect(w, g, m);
    StepKeeps(w, Receives(g, m));
    var next := Then(met, Checkpoints(g, final, ids, failed));
    CheckpointGate(met, g, final, ids, failed);
    StepKeeps(met, Checkpoints(g, final, ids, failed));
    MayReceive(w, next, g, m);
    var last := |met.gates[g].pending| - 1;
    assert met.gates[g].pending[last].message == m.(runID := w.gates[g].runID);
    var k := |w.ledger| + last;
    assert next.ledger[k] == Written(w.ledger, met.gates[g].pending, ids)[last];
    assert FromSameRun(next.ledger[k].message, m);
    AcknowledgedAgain(next, g, m, k);
  }

  lemma AcknowledgedAgain(w: World, g: nat, m: Message, k: nat)
    requires Inv(w) && Enabled(w, Receives(g, m)) && k < |w.ledger| && FromSameRun(w.ledger[k].message, m)
    ensures m.messageID in Then(w, Receives(g, m)).received
  {
    NoneTwice(LedgerIDs(w.ledger), PendingIDs(Pending(w)));
    forall e | e in w.ledger && e.message.messageID == m.messageID
      ensures FromSameRun(e.message, m)
    {
      var i :| 0 <= i < |w.ledger| && w.ledger[i] == e;
      OneWithID(w.ledger, m.messageID, i, k);
    }
    assert w.ledger[k] in w.ledger;
    ReceiveMeans(w.gates[g], w.ledger, m, w.counter);
    ReceiveEffect(w, g, m);
    hide ReceivedBy, Inv;
  }

  lemma NoneTwice(a: seq<string>, b: seq<string>)
    requires AtMostOnce(multiset(a) + multiset(b))
    ensures AtMostOnce(multiset(a))
  {
    forall id | id != ""
      ensures multiset(a)[id] <= 1
    {
      assert (multiset(a) + multiset(b))[id] <= 1;
    }
  }
}
