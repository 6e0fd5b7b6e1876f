/** Inputs that reach a running session from outside (internal/runner/steer.go and
    collaboration.go): the part of a live run that admits, commits and rejects them. */
module Inputs {
  import opened Basics
  import opened Messages
  import opened Ledger

  datatype Steering = Initializing | Open | Closed

  /** Admission number, the waiting caller if there is one, and the message. */
  datatype Input = Input(number: nat, ticket: Option<nat>, message: Message)

  /** The channel a waiting loop selects on: which one it is, and whether it is closed. */
  datatype Signal = Signal(generation: nat, closed: bool)

  datatype Gate = Gate(runID: string, steering: Steering, pending: seq<Input>, signal: Signal, canceled: bool)

  datatype Answer = Nil | RunChanged | NotRunning | PublishFailed | AppendFailed

  datatype ReceiveResult = InLedger | NotYet | Conflict | BadIdentity

  function NewGate(runID: string): Gate {
    Gate(runID, Initializing, [], Signal(0, false), false)
  }

  function AdmittedTo(g: Gate, input: Input): Gate {
    g.(pending := g.pending + [input], signal := g.signal.(closed := true))
  }

  /** Whether `steer` lets an input in. */
  predicate Admits(g: Gate, expected: Option<string>) {
    g.steering == Open && (expected.None? || expected.value == g.runID)
  }

  function Refusal(expected: Option<string>): Answer {
    if expected.Some? then RunChanged else NotRunning
  }

  /** What `checkpoint` leaves behind once it has taken the pending inputs. */
  function TakenFrom(g: Gate, final: bool): Gate {
    if g.pending != [] then g.(pending := [], signal := Signal(g.signal.generation + 1, false))
    else if final then g.(steering := Closed)
    else g
  }

  function Finished(g: Gate): Gate {
    g.(steering := Closed, pending := [], canceled := true)
  }

  function OpenedGate(g: Gate, contextDone: bool): Gate {
    if g.steering != Initializing then g else if contextDone then g.(steering := Closed) else g.(steering := Open)
  }

  // ---------- collaboration messages ----------

  predicate Identified(m: Message) {
    m.role == Collaboration && m.messageID != "" && m.sourceSessionID != ""
  }

  predicate SameSource(existing: Message, incoming: Message) {
    existing.role == incoming.role && existing.sourceSessionID == incoming.sourceSessionID
    && existing.carried.sourceRunID == incoming.carried.sourceRunID
  }

  function FindMessage(entries: seq<Entry>, messageID: string): (r: Option<Entry>)
    ensures r.Some? ==> r.value in entries && r.value.message.messageID == messageID
    ensures r.None? ==> forall e :: e in entries ==> e.message.messageID != messageID
  {
    if entries == [] then None
    else if entries[0].message.messageID == messageID then Some(entries[0])
    else FindMessage(entries[1..], messageID)
  }

  function FindPending(pending: seq<Input>, messageID: string): (r: Option<Input>)
    ensures r.Some? ==> r.value in pending && r.value.message.messageID == messageID
    ensures r.None? ==> forall i :: i in pending ==> i.message.messageID != messageID
  {
    if pending == [] then None
    else if pending[0].message.messageID == messageID then Some(pending[0])
    else FindPending(pending[1..], messageID)
  }

  function Compared(existing: Message, incoming: Message): ReceiveResult {
    if SameSource(existing, incoming) then InLedger else Conflict
  }

  /** What `Receive` decides inside the hand-over section of one run. */
  function ReceivedBy(g: Gate, entries: seq<Entry>, m: Message, number: nat): (Gate, ReceiveResult) {
    var existing := FindMessage(entries, m.messageID);
    var waiting := FindPending(g.pending, m.messageID);
    if existing.Some? then (g, Compared(existing.value.message, m))
    else if waiting.Some? then (g, if SameSource(waiting.value.message, m) then NotYet else Conflict)
    else if g.steering != Open then (g, NotYet)
    else (AdmittedTo(g, Input(number, None, m.(runID := g.runID))), NotYet)
  }

  predicate Knows(entries: seq<Entry>, messageID: string) {
    exists e :: e in entries && e.message.messageID == messageID
  }

  predicate Waits(pending: seq<Input>, messageID: string) {
    exists i :: i in pending && i.message.messageID == messageID
  }

  /** The same role, the same session and the same run as the message found under this identity. */
  predicate FromSameRun(found: Message, m: Message) {
    && found.messageID == m.messageID && found.role == m.role
    && found.sourceSessionID == m.sourceSessionID && found.carried.sourceRunID == m.carried.sourceRunID
  }

  /** A report is acknowledged only when the ledger has it; one that waits already is not taken in again; a new
      one is taken in, behind the others and as a message of this run, exactly while the run is open; and the
      same identity with another origin is a conflict. */
  lemma ReceiveMeans(g: Gate, entries: seq<Entry>, m: Message, number: nat)
    ensures var x := ReceivedBy(g, entries, m, number);
            && (x.1 == InLedger ==> exists e :: e in entries && FromSameRun(e.message, m))
            && (x.1 == Conflict ==> (Knows(entries, m.messageID) || Waits(g.pending, m.messageID)))
            && (Knows(entries, m.messageID) && (forall e :: e in entries && e.message.messageID == m.messageID ==> FromSameRun(e.message, m)) ==>
                  x == (g, InLedger))
            && (Knows(entries, m.messageID) && (forall e :: e in entries ==> !FromSameRun(e.message, m)) ==> x == (g, Conflict))
            && (!Knows(entries, m.messageID) && Waits(g.pending, m.messageID) ==>
                  x.0 == g && x.1 != InLedger
                  && ((forall i :: i in g.pending && i.message.messageID == m.messageID ==> FromSameRun(i.message, m)) ==> x.1 == NotYet)
                  && ((forall i :: i in g.pending ==> !FromSameRun(i.message, m)) ==> x.1 == Conflict))
            && (!Knows(entries, m.messageID) && !Waits(g.pending, m.messageID) ==>
                  x.1 == NotYet
                  && (g.steering != Open ==> x.0 == g)
                  && (g.steering == Open ==>
                        x.0 == g.(pending := g.pending + [Input(number, None, m.(runID := g.runID))], signal := g.signal.(closed := true))))
  {}

  method CollaborationEntry(entries: seq<Entry>, messageID: string) returns (r: Option<Entry>)
    ensures r == FindMessage(entries, messageID)
  {
    assert entries[0..] == entries;
    for i := 0 to |entries|
      invariant FindMessage(entries, messageID) == FindMessage(entries[i..], messageID)
    {
      assert entries[i..][0] == entries[i] && entries[i..][1..] == entries[i+1..];
      if entries[i].message.messageID == messageID {
        return Some(entries[i]);
      }
    }
    return None;
  }

  method PendingEntry(pending: seq<Input>, messageID: string) returns (r: Option<Input>)
    ensures r == FindPending(pending, messageID)
  {
    assert pending[0..] == pending;
    for i := 0 to |pending|
      invariant FindPending(pending, messageID) == FindPending(pending[i..], messageID)
    {
      assert pending[i..][0] == pending[i] && pending[i..][1..] == pending[i+1..];
      if pending[i].message.messageID == messageID {
        return Some(pending[i]);
      }
    }
    return None;
  }

  class RunInputs {
    const runID: string
    var steering: Steering
    var pending: seq<Input>
    var signal: Signal
    var canceled: bool

    ghost function View(): Gate
      reads this
    {
      Gate(runID, steering, pending, signal, canceled)
    }

    constructor (runID: string)
      ensures View() == NewGate(runID)
    {
      this.runID := runID;
      steering, pending, signal, canceled := Initializing, [], Signal(0, false), false;
    }

    /** `signalInputLocked`: closing an already closed channel is not attempted. */
    method SignalInput()
      modifies this
      ensures View() == old(View()).(signal := old(signal).(closed := true))
    {
      if !signal.closed {
        signal := signal.(closed := true);
      }
    }

    method OpenSteering(contextDone: bool) returns (accepting: bool)
      modifies this
      ensures View() == OpenedGate(old(View()), contextDone)
      ensures accepting == (old(steering) == Initializing && steering == Open)
      ensures steering == (if old(steering) != Initializing then old(steering) else if contextDone then Closed else Open)
    {
      if steering != Initializing { return false; }
      if contextDone {
        steering := Closed;
        return false;
      }
      steering := Open;
      return true;
    }

    /** The locked part of `steer`: the caller waits, or is refused at once. */
    method Steer(expected: Option<string>, number: nat, ticket: nat, message: Message) returns (refused: Option<Answer>)
      modifies this
      ensures Admits(old(View()), expected) ==>
                refused == None && View() == AdmittedTo(old(View()), Input(number, Some(ticket), message))
      ensures !Admits(old(View()), expected) ==> refused == Some(Refusal(expected)) && View() == old(View())
      ensures refused.None? <==> old(steering) == Open && (expected.Some? ==> expected.value == runID)
      ensures refused.Some? ==> refused.value == (if expected.Some? then RunChanged else NotRunning)
      ensures refused.None? ==> pending == old(pending) + [Input(number, Some(ticket), message)] && signal.closed && steering == Open
    {
      if steering != Open || (expected.Some? && runID != expected.value) {
        return Some(if expected.Some? then RunChanged else NotRunning);
      }
      pending := pending + [Input(number, Some(ticket), message)];
      SignalInput();
      return None;
    }

    /** The locked part of `Receive`. */
    method Receive(sess: Session, m: Message, number: nat) returns (r: ReceiveResult)
      requires sess.Valid()
      modifies this
      ensures (View(), r) == ReceivedBy(old(View()), EntriesAt(sess.nodes, sess.head), m, number)
    {
      var entries := sess.Entries();
      var existing := CollaborationEntry(entries, m.messageID);
      if existing.Some? {
        if SameSource(existing.value.message, m) { return InLedger; }
        return Conflict;
      }
      var waiting := PendingEntry(pending, m.messageID);
      if waiting.Some? {
        if SameSource(waiting.value.message, m) { return NotYet; }
        return Conflict;
      }
      if steering != Open { return NotYet; }
      pending := pending + [Input(number, None, m.(runID := runID))];
      SignalInput();
      return NotYet;
    }

    /** `checkpoint`: the pending inputs reach the ledger in order, up to the first one it refuses. */
    method Checkpoint(sess: Session, final: bool, ids: seq<Id>) returns (committed: seq<Entry>, refused: Option<AppendError>)
      requires sess.Valid() && |ids| == |pending|
      modifies this, sess
      ensures sess.Valid() && View() == TakenFrom(old(View()), final)
      ensures pending == [] && (old(pending) != [] ==> steering == old(steering) && signal == Signal(old(signal).generation + 1, false))
      ensures old(pending) == [] ==> signal == old(signal) && steering == if final then Closed else old(steering)
      ensures |committed| <= |old(pending)| && (refused.None? <==> |committed| == |old(pending)|)
      ensures forall i :: 0 <= i < |committed| ==> committed[i].id == ids[i] && committed[i].message == old(pending)[i].message
      ensures EntriesAt(sess.nodes, sess.head) == EntriesAt(old(sess.nodes), old(sess.head)) + committed
    {
      var taken := pending;
      pending := [];
      if |taken| > 0 {
        signal := Signal(signal.generation + 1, false);
      } else if final {
        steering := Closed;
      }
      ghost var start := EntriesAt(sess.nodes, sess.head);
      committed, refused := [], None;
      for i := 0 to |taken|
        invariant sess.Valid() && |committed| == i
        invariant View() == TakenFrom(old(View()), final)
        invariant forall k :: 0 <= k < i ==> committed[k].id == ids[k] && committed[k].message == taken[k].message
        invariant EntriesAt(sess.nodes, sess.head) == start + committed
      {
        hide *;
        var entry := Write(sess, ids[i], taken[i].message);
        if entry.Err? {
          refused := Some(entry.error);
          return;
        }
        Longer(start, committed, entry.value);
        committed := committed + [entry.value];
      }
    }

    /** `finishInputs`: the run takes nothing more, and whoever still waits is to be told so. */
    method FinishInputs() returns (rejected: seq<Input>)
      modifies this
      ensures View() == Finished(old(View())) && rejected == old(pending)
      ensures steering == Closed && pending == [] && canceled && signal == old(signal)
    {
      steering := Closed;
      rejected := pending;
      pending := [];
      canceled := true;
    }
  }

  lemma Longer(start: seq<Entry>, committed: seq<Entry>, e: Entry)
    ensures start + committed + [e] == start + (committed + [e])
  {}

  method Write(sess: Session, id: Id, m: Message) returns (r: Result<Entry, AppendError>)
    requires sess.Valid()
    modifies sess
    ensures sess.Valid()
    ensures r.Err? ==> EntriesAt(sess.nodes, sess.head) == EntriesAt(old(sess.nodes), old(sess.head))
    ensures r.Ok? ==> r.value.id == id && r.value.message == m
                      && EntriesAt(sess.nodes, sess.head) == EntriesAt(old(sess.nodes), old(sess.head)) + [r.value]
  {
    hide ValidMessage, EntriesAt;
    r := sess.AppendID(id, m);
  }
}
