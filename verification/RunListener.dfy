/** One subscriber of a session's events: the reordering buffer behind a snapshot
    (internal/appserver/harness_run.go). */
module RunListener {
  import opened Basics
  import opened RunUpdates

  const bufferLimit := 128

  datatype Listener = Listener(ready: bool, epoch: string, through: nat, pending: map<nat, Event>,
                               delivered: seq<Event>, done: bool)

  const newListener := Listener(false, "", 0, map[], [], false)

  /** Buffered events lie under their own number. */
  predicate Keyed(pending: map<nat, Event>) {
    forall n :: n in pending ==> pending[n].updateSeq == n
  }

  /** `flush`: deliver as long as the next number is there. */
  function Flushed(l: Listener): Listener
    decreases |l.pending|
  {
    var next := l.through + 1;
    if next in l.pending then
      Smaller(l.pending, next);
      Flushed(l.(pending := l.pending - {next}, through := next, delivered := l.delivered + [l.pending[next]]))
    else l
  }

  lemma Smaller(pending: map<nat, Event>, n: nat)
    requires n in pending
    ensures |pending - {n}| < |pending|
  {
    assert (pending - {n}).Keys == pending.Keys - {n};
    assert |pending.Keys - {n}| == |pending.Keys| - 1;
  }

  /** `receive`. */
  function Received(l: Listener, sessionID: string, e: Event): Listener {
    if e.sessionID != sessionID || l.done then l
    else if l.ready && e.epoch != l.epoch then l.(done := true)
    else if e.updateSeq <= l.through then l
    else
      var added := l.(pending := l.pending[e.updateSeq := e]);
      var flushed := if l.ready then Flushed(added) else added;
      if |flushed.pending| > bufferLimit then flushed.(done := true) else flushed
  }

  predicate OneEpoch(pending: map<nat, Event>, epoch: string) {
    forall n :: n in pending ==> pending[n].epoch == epoch
  }

  function Above(pending: map<nat, Event>, through: nat): map<nat, Event> {
    map n | n in pending && n > through :: pending[n]
  }

  /** `start` when everything buffered is of the snapshot's epoch. */
  function Begun(l: Listener, epoch: string, through: nat): Listener {
    Flushed(Listener(true, epoch, through, Above(l.pending, through), l.delivered, l.done))
  }

  class Subscriber {
    const sessionID: string
    var ready: bool
    var epoch: string
    var through: nat
    var pending: map<nat, Event>
    /** What was handed to the subscription, and whether its connection is gone. */
    var delivered: seq<Event>
    var done: bool

    ghost function View(): Listener
      reads this
    {
      Listener(ready, epoch, through, pending, delivered, done)
    }

    constructor (sessionID: string)
      ensures View() == newListener && this.sessionID == sessionID
    {
      this.sessionID := sessionID;
      ready, epoch, through, pending, delivered, done := false, "", 0, map[], [], false;
    }

    method Flush()
      requires Keyed(pending)
      modifies this
      ensures View() == Flushed(old(View())) && Keyed(pending)
    {
      while through + 1 in pending
        invariant Keyed(pending)
        invariant Flushed(View()) == Flushed(old(View()))
        decreases |pending|
      {
        var event := pending[through + 1];
        Smaller(pending, through + 1);
        pending := pending - {event.updateSeq};
        through := event.updateSeq;
        delivered := delivered + [event];
      }
    }

    method Receive(event: Event)
      requires Keyed(pending)
      modifies this
      ensures View() == Received(old(View()), sessionID, event) && Keyed(pending)
      ensures !old(done) && |old(pending)| <= bufferLimit ==>
                (done <==> (event.sessionID == sessionID && old(ready) && event.epoch != old(epoch)) || |pending| > bufferLimit)
      ensures !old(done) && IsNews(old(View()), sessionID, event) ==> Taken(old(View()), View(), event)
    {
      if !done { ReceivedExactly(View(), sessionID, event); }
      if event.sessionID != sessionID { return; }
      if done { return; }
      if ready && event.epoch != epoch {
        done := true;
        return;
      }
      if event.updateSeq <= through { return; }
      pending := pending[event.updateSeq := event];
      if ready {
        Flush();
      }
      if |pending| > bufferLimit {
        done := true;
      }
    }

    /** The buffer is walked in an order the language leaves open. */
    method Start(snapshotEpoch: string, snapshotSeq: nat)
      requires Keyed(pending)
      modifies this
      ensures Keyed(pending)
      ensures OneEpoch(old(pending), snapshotEpoch) ==> View() == Begun(old(View()), snapshotEpoch, snapshotSeq) && done == old(done)
      ensures !OneEpoch(old(pending), snapshotEpoch) ==> done && ready && delivered == old(delivered)
    {
      ready := true;
      epoch := snapshotEpoch;
      through := snapshotSeq;
      var left := pending.Keys;
      while left != {}
        invariant left <= old(pending).Keys
        invariant ready && epoch == snapshotEpoch && through == snapshotSeq && delivered == old(delivered) && done == old(done)
        invariant forall n :: n in pending <==> n in old(pending) && (n in left || n > snapshotSeq)
        invariant forall n :: n in pending ==> pending[n] == old(pending)[n]
        invariant forall n :: n in old(pending) && n !in left ==> old(pending)[n].epoch == snapshotEpoch
        decreases left
      {
        var seqNo :| seqNo in left;
        if pending[seqNo].epoch != epoch {
          done := true;
          return;
        }
        if seqNo <= through {
          pending := pending - {seqNo};
        }
        left := left - {seqNo};
      }
      assert pending == Above(old(pending), snapshotSeq);
      FlushExact(View());
      Flush();
    }
  }

  // ---------- what flushing does ----------

  /** Buffered events are the events of `log`, each under its place there. */
  predicate FromLog(pending: map<nat, Event>, log: seq<Event>) {
    forall n :: n in pending ==> 0 < n <= |log| && pending[n] == log[n-1]
  }

  /** Delivered are the events after `from` up to `through`, in order. */
  predicate DeliveredRange(l: Listener, log: seq<Event>, from: nat) {
    from <= l.through <= |log| && l.delivered == log[from..l.through]
  }

  /** A listener with nothing deliverable left in its buffer. */
  predicate Settled(l: Listener) {
    l.through + 1 !in l.pending && forall n :: n in l.pending ==> n > l.through
  }

  lemma {:induction false} FlushDelivers(l: Listener, log: seq<Event>, from: nat)
    requires FromLog(l.pending, log) && DeliveredRange(l, log, from) && forall n :: n in l.pending ==> n > l.through
    ensures var f := Flushed(l);
            && FromLog(f.pending, log) && DeliveredRange(f, log, from) && Settled(f)
            && f.ready == l.ready && f.epoch == l.epoch && f.done == l.done && l.through <= f.through
            && (forall n :: n in f.pending ==> n in l.pending)
            && (forall n :: n in l.pending ==> n <= f.through || n in f.pending)
    decreases |l.pending|
  {
    var next := l.through + 1;
    if next in l.pending {
      Smaller(l.pending, next);
      var step := l.(pending := l.pending - {next}, through := next, delivered := l.delivered + [l.pending[next]]);
      assert log[from..next] == log[from..l.through] + [log[l.through]];
      FlushDelivers(step, log, from);
    }
  }

  // ---------- when a subscription ends ----------

  /** `f` is `l` after handing on the stretch behind `l.through`, in order, and nothing else. */
  ghost predicate HandedOn(l: Listener, f: Listener) {
    && f == l.(through := f.through, pending := f.pending, delivered := f.delivered)
    && l.through <= f.through && f.through + 1 !in f.pending
    && |f.delivered| == |l.delivered| + (f.through - l.through) && l.delivered <= f.delivered
    && (forall n :: l.through < n <= f.through ==> n in l.pending && DeliveredAt(l, f, n) == Some(l.pending[n]))
    && (forall n :: n in f.pending <==> n in l.pending && !(l.through < n <= f.through))
    && (forall n :: n in f.pending ==> f.pending[n] == l.pending[n])
  }

  /** What `f` has been given as number `n`, counted on from `l`. */
  function DeliveredAt(l: Listener, f: Listener, n: nat): Option<Event> {
    var i := |l.delivered| + n - l.through - 1;
    if 0 <= i < |f.delivered| then Some(f.delivered[i]) else None
  }

  lemma HandedOnStep(l: Listener, step: Listener, f: Listener)
    requires var next := l.through + 1;
             next in l.pending
             && step == l.(pending := l.pending - {next}, through := next, delivered := l.delivered + [l.pending[next]])
    requires HandedOn(step, f)
    ensures HandedOn(l, f)
  {
    var next := l.through + 1;
    assert f.delivered[|l.delivered|] == step.delivered[|l.delivered|];
    forall n | l.through < n <= f.through
      ensures n in l.pending && DeliveredAt(l, f, n) == Some(l.pending[n])
    {
      if n > next { assert n in step.pending && DeliveredAt(step, f, n) == Some(step.pending[n]); }
    }
  }

  lemma {:induction false} FlushExact(l: Listener)
    ensures HandedOn(l, Flushed(l))
    decreases |l.pending|
  {
    var next := l.through + 1;
    if next in l.pending {
      Smaller(l.pending, next);
      var step := l.(pending := l.pending - {next}, through := next, delivered := l.delivered + [l.pending[next]]);
      FlushExact(step);
      HandedOnStep(l, step, Flushed(step));
    }
  }

  /** An event of the own session and process that has not been handed on yet. */
  predicate IsNews(l: Listener, sessionID: string, e: Event) {
    e.sessionID == sessionID && (l.ready ==> e.epoch == l.epoch) && e.updateSeq > l.through
  }

  /** The event waits in the buffer or has been handed on in its place. */
  predicate Taken(l: Listener, r: Listener, e: Event) {
    || (e.updateSeq in r.pending && r.pending[e.updateSeq] == e)
    || (l.ready && l.through < e.updateSeq <= r.through && DeliveredAt(l, r, e.updateSeq) == Some(e))
  }

  /** News is never refused: before the snapshot it is buffered, afterwards buffered or handed on.  Everything
      else of the own process leaves the subscriber as it is, and an event of another process ends it only
      once it has started. */
  lemma ReceivedExactly(l: Listener, sessionID: string, e: Event)
    requires !l.done
    ensures var r := Received(l, sessionID, e);
            && (IsNews(l, sessionID, e) ==> Taken(l, r, e) && (r.done <==> |r.pending| > bufferLimit))
            && (IsNews(l, sessionID, e) && !l.ready ==>
                  r == l.(pending := l.pending[e.updateSeq := e], done := r.done))
            && (e.sessionID == sessionID && l.ready && e.epoch != l.epoch ==> r == l.(done := true))
            && (!IsNews(l, sessionID, e) && !(e.sessionID == sessionID && l.ready && e.epoch != l.epoch) ==> r == l)
  {
    if IsNews(l, sessionID, e) && l.ready {
      FlushExact(l.(pending := l.pending[e.updateSeq := e]));
      hide Flushed;
    }
  }

  /** A subscription ends exactly on an event of another process after its start, or when more events than the
      limit wait for a missing one. */
  lemma EndsExactly(l: Listener, sessionID: string, e: Event)
    requires !l.done && |l.pending| <= bufferLimit
    ensures var r := Received(l, sessionID, e);
            r.done <==> (e.sessionID == sessionID && l.ready && e.epoch != l.epoch) || |r.pending| > bufferLimit
  {
    ReceivedExactly(l, sessionID, e);
  }
}
