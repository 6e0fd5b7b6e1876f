/** Reference-counted locks by path (internal/machine/local/files.go) taken by batches in sorted
    order (internal/machine/local/agent_files.go), under every interleaving. */
module PathLocks {
  import opened Basics

  type Key = string
  type CallerID = nat
  type LockID = nat

  /** `gate` is the one-place channel: who has put a token into it. */
  datatype Lock = Lock(key: Key, refs: int, gate: Option<CallerID>)

  datatype Phase =
    | Ready
    | Waiting(lock: LockID)
    | Canceling(lock: LockID)
    | Unlocking
    | Dropping(lock: LockID)

  /** A caller takes `keys` one after the other; `held` are the locks it has, in that order. A single-file
      caller has one key; a batch has the sorted keys of all its files and gives up at a repeated one. */
  datatype Caller = Caller(keys: seq<Key>, held: seq<LockID>, phase: Phase)

  datatype Table = Table(items: map<Key, LockID>, locks: map<LockID, Lock>, next: LockID)

  // ---------- the two halves of lockKey ----------

  /** The lock a key stands for now, made if there is none, with one more reference. */
  function Reserved(t: Table, key: Key): (Table, LockID)
    requires key in t.items ==> t.items[key] in t.locks
  {
    if key in t.items then
      var id := t.items[key];
      (t.(locks := t.locks[id := t.locks[id].(refs := t.locks[id].refs + 1)]), id)
    else
      (Table(t.items[key := t.next], t.locks[t.next := Lock(key, 1, None)], t.next + 1), t.next)
  }

  /** `release`: one reference less; the entry goes with the last one. */
  function Released(t: Table, id: LockID): Table
    requires id in t.locks
  {
    var lock := t.locks[id].(refs := t.locks[id].refs - 1);
    t.(locks := t.locks[id := lock], items := if lock.refs == 0 then t.items - {lock.key} else t.items)
  }

  function Gated(t: Table, id: LockID, gate: Option<CallerID>): Table
    requires id in t.locks
  {
    t.(locks := t.locks[id := t.locks[id].(gate := gate)])
  }

  class PathLockSet {
    var items: map<Key, LockID>
    var locks: map<LockID, Lock>
    var next: LockID

    ghost function View(): Table
      reads this
    {
      Table(items, locks, next)
    }

    constructor ()
      ensures View() == Table(map[], map[], 0)
    {
      items, locks, next := map[], map[], 0;
    }

    method Reserve(key: Key) returns (id: LockID)
      requires key in items ==> items[key] in locks
      modifies this
      ensures (View(), id) == Reserved(old(View()), key)
    {
      if key !in items {
        id := next;
        next := next + 1;
        locks := locks[id := Lock(key, 0, None)];
        items := items[key := id];
      } else {
        id := items[key];
      }
      locks := locks[id := locks[id].(refs := locks[id].refs + 1)];
      assert key !in old(items) ==> locks == old(locks)[id := Lock(key, 1, None)];
    }

    method Release(id: LockID)
      requires id in locks
      modifies this
      ensures View() == Released(old(View()), id)
    {
      var key := locks[id].key;
      locks := locks[id := locks[id].(refs := locks[id].refs - 1)];
      if locks[id].refs == 0 {
        items := items - {key};
      }
    }
  }

  // ---------- the system ----------

  datatype World = World(table: Table, callers: map<CallerID, Caller>)

  datatype Step =
    | Arrives(caller: CallerID, keys: seq<Key>)
    | Reserves(caller: CallerID)
    | Enters(caller: CallerID)
    | Cancels(caller: CallerID)
    | LeavesQueue(caller: CallerID)
    | StartsUnlocking(caller: CallerID)
    | OpensGate(caller: CallerID)
    | DropsReference(caller: CallerID)
    | Ends(caller: CallerID)

  /** The result of `sort.Strings`, which may repeat a key. */
  predicate Sorted(keys: seq<Key>) {
    forall i, j :: 0 <= i < j < |keys| ==> !Less(keys[j], keys[i])
  }

  predicate Repeats(a: Caller) {
    0 < |a.held| < |a.keys| && a.keys[|a.held|-1] == a.keys[|a.held|]
  }

  predicate WantsMore(a: Caller) {
    |a.held| < |a.keys| && !Repeats(a)
  }

  /** A send on the gate blocks while a token is in it, a receive while none is. */
  predicate Enabled(w: World, step: Step) {
    match step
    case Arrives(c, keys) => c !in w.callers && Sorted(keys)
    case Reserves(c) => c in w.callers && w.callers[c].phase.Ready? && WantsMore(w.callers[c])
    case Enters(c) =>
      c in w.callers && w.callers[c].phase.Waiting? && w.callers[c].phase.lock in w.table.locks
      && w.table.locks[w.callers[c].phase.lock].gate.None?
    case Cancels(c) => c in w.callers && w.callers[c].phase.Waiting?
    case LeavesQueue(c) => c in w.callers && w.callers[c].phase.Canceling? && w.callers[c].phase.lock in w.table.locks
    case StartsUnlocking(c) => c in w.callers && w.callers[c].phase.Ready? && !WantsMore(w.callers[c])
    case OpensGate(c) =>
      c in w.callers && w.callers[c].phase.Unlocking? && w.callers[c].held != []
      && w.callers[c].held[|w.callers[c].held|-1] in w.table.locks
      && w.table.locks[w.callers[c].held[|w.callers[c].held|-1]].gate.Some?
    case DropsReference(c) => c in w.callers && w.callers[c].phase.Dropping? && w.callers[c].phase.lock in w.table.locks
    case Ends(c) => c in w.callers && w.callers[c].phase.Unlocking? && w.callers[c].held == []
  }

  /** Every entry of the table names a lock made for its key. */
  predicate Known(t: Table) {
    forall k :: k in t.items ==> t.items[k] in t.locks && t.locks[t.items[k]].key == k
  }

  function Then(w: World, step: Step): World
    requires Enabled(w, step) && Known(w.table)
  {
    match step
    case Arrives(c, keys) => w.(callers := w.callers[c := Caller(keys, [], Ready)])
    case Reserves(c) =>
      var caller := w.callers[c];
      var (table, id) := Reserved(w.table, caller.keys[|caller.held|]);
      World(table, w.callers[c := caller.(phase := Waiting(id))])
    case Enters(c) =>
      var caller := w.callers[c];
      World(Gated(w.table, caller.phase.lock, Some(c)),
            w.callers[c := caller.(held := caller.held + [caller.phase.lock], phase := Ready)])
    case Cancels(c) => w.(callers := w.callers[c := w.callers[c].(phase := Canceling(w.callers[c].phase.lock))])
    case LeavesQueue(c) =>
      World(Released(w.table, w.callers[c].phase.lock), w.callers[c := w.callers[c].(phase := Unlocking)])
    case StartsUnlocking(c) => w.(callers := w.callers[c := w.callers[c].(phase := Unlocking)])
    case OpensGate(c) =>
      var caller := w.callers[c];
      var last := caller.held[|caller.held|-1];
      World(Gated(w.table, last, None), w.callers[c := caller.(held := caller.held[..|caller.held|-1], phase := Dropping(last))])
    case DropsReference(c) =>
      World(Released(w.table, w.callers[c].phase.lock), w.callers[c := w.callers[c].(phase := Unlocking)])
    case Ends(c) => w.(callers := w.callers - {c})
  }

  // ---------- invariants ----------

  predicate HasPending(a: Caller) {
    a.phase.Waiting? || a.phase.Canceling? || a.phase.Dropping?
  }

  function HeldSet(a: Caller): set<LockID> {
    set id | id in a.held
  }

  /** The locks a caller has a reference to. */
  function Uses(a: Caller): set<LockID> {
    HeldSet(a) + if HasPending(a) then {a.phase.lock} else {}
  }

  function UsersOf(callers: map<CallerID, Caller>, id: LockID): set<CallerID> {
    set c | c in callers && id in Uses(callers[c])
  }

  function Users(w: World, id: LockID): set<CallerID> {
    UsersOf(w.callers, id)
  }

  /** The table's entry for the lock's key is this very lock. */
  predicate Listed(t: Table, id: LockID)
    requires id in t.locks
  {
    t.locks[id].key in t.items && t.items[t.locks[id].key] == id
  }

  /** References count the callers that hold or await the lock; it is listed exactly while there is one;
      a token in the gate is its holder's. */
  predicate LockSound(w: World, id: LockID)
    requires id in w.table.locks
  {
    var l := w.table.locks[id];
    && id < w.table.next
    && l.refs == |Users(w, id)|
    && (Users(w, id) != {} <==> Listed(w.table, id))
    && (l.gate.Some? ==> l.gate.value in w.callers && id in w.callers[l.gate.value].held)
  }

  predicate Holds(t: Table, c: CallerID, id: LockID, key: Key) {
    id in t.locks && t.locks[id].key == key && t.locks[id].gate == Some(c)
  }

  /** How many of its keys a caller has asked for. */
  function Asked(a: Caller): nat {
    |a.held| + if HasPending(a) then 1 else 0
  }

  /** A caller's locks are those of its first keys, all different; the pending one belongs to the next key. */
  predicate CallerSound(t: Table, c: CallerID, a: Caller) {
    && Sorted(a.keys) && Asked(a) <= |a.keys| && StrictlySorted(a.keys[..Asked(a)])
    && (forall i :: 0 <= i < |a.held| ==> Holds(t, c, a.held[i], a.keys[i]))
    && (HasPending(a) ==> a.phase.lock in t.locks && t.locks[a.phase.lock].key == a.keys[|a.held|])
  }

  predicate Inv(w: World) {
    && Known(w.table)
    && LocksSound(w)
    && CallersSound(w.table, w.callers)
  }

  predicate LocksSound(w: World) {
    forall id :: id in w.table.locks ==> LockSound(w, id)
  }

  predicate CallersSound(t: Table, callers: map<CallerID, Caller>) {
    forall c :: c in callers ==> CallerSound(t, c, callers[c])
  }

  // ---------- each step keeps the invariant ----------

  /** Only caller `c` enters or leaves the users of a lock when only `c` changes. */
  lemma UsersAfter(callers: map<CallerID, Caller>, c: CallerID, a: Caller, id: LockID)
    ensures c in UsersOf(callers, id) <==> c in callers && id in Uses(callers[c])
    ensures UsersOf(callers[c := a], id) == UsersOf(callers, id) - {c} + (if id in Uses(a) then {c} else {})
  {}

  /** The pending lock is none of the held ones, and no held one repeats. */
  lemma DistinctLocks(t: Table, c: CallerID, a: Caller)
    requires CallerSound(t, c, a)
    ensures HasPending(a) ==> a.phase.lock !in a.held
    ensures NoDuplicates(a.held)
    ensures forall id :: id in Uses(a) ==> id in t.locks
  {
    forall i, j | 0 <= i < j < |a.held|
      ensures a.held[i] != a.held[j]
    {
      LessIrreflexive(a.keys[i]);
      assert Less(a.keys[..Asked(a)][i], a.keys[..Asked(a)][j]);
      assert Holds(t, c, a.held[i], a.keys[i]) && Holds(t, c, a.held[j], a.keys[j]);
    }
    if HasPending(a) {
      forall i | 0 <= i < |a.held|
        ensures a.held[i] != a.phase.lock
      {
        LessIrreflexive(a.keys[i]);
        assert Less(a.keys[..Asked(a)][i], a.keys[..Asked(a)][|a.held|]);
        assert Holds(t, c, a.held[i], a.keys[i]);
      }
    }
    forall id | id in a.held
      ensures id in t.locks
    {
      var i :| 0 <= i < |a.held| && a.held[i] == id;
      assert Holds(t, c, a.held[i], a.keys[i]);
    }
  }

  /** A caller stays sound when the table keeps its locks, their keys and the gates it has closed. */
  lemma StaysSound(t: Table, t': Table, c: CallerID, a: Caller)
    requires CallerSound(t, c, a)
    requires forall id :: id in t.locks ==> id in t'.locks && t'.locks[id].key == t.locks[id].key
    requires forall id :: id in t.locks && t.locks[id].gate == Some(c) ==> t'.locks[id].gate == Some(c)
    ensures CallerSound(t', c, a)
  {
    forall i | 0 <= i < |a.held|
      ensures Holds(t', c, a.held[i], a.keys[i])
    {
      assert Holds(t, c, a.held[i], a.keys[i]);
    }
  }

  /** The next key of a sorted batch is greater than all earlier ones unless it repeats the last. */
  lemma NextKeyIsGreater(a: Caller)
    requires Sorted(a.keys) && |a.held| < |a.keys| && StrictlySorted(a.keys[..|a.held|])
    requires WantsMore(a)
    ensures StrictlySorted(a.keys[..|a.held|+1])
  {
    var n := |a.held|;
    var s := a.keys[..n+1];
    forall i, j | 0 <= i < j < |s|
      ensures Less(s[i], s[j])
    {
      if j < n {
        assert Less(a.keys[..n][i], a.keys[..n][j]);
      } else {
        LessTotal(a.keys[n-1], a.keys[n]);
        if i < n - 1 {
          assert Less(a.keys[..n][i], a.keys[..n][n-1]);
          LessTransitive(a.keys[i], a.keys[n-1], a.keys[n]);
        }
      }
    }
  }

  /** What a changed table `t'` owes the callers that did not move. */
  predicate KeepsOthers(t: Table, t': Table, c: CallerID) {
    && t.next <= t'.next
    && (forall id :: id in t.locks ==> id in t'.locks && t'.locks[id].key == t.locks[id].key)
    && (forall id :: id in t.locks && t.locks[id].gate.Some? && t.locks[id].gate != Some(c) ==>
          t'.locks[id].gate == t.locks[id].gate)
  }

  lemma OthersStay(w: World, t': Table, c: CallerID, a: Caller)
    requires Inv(w) && CallerSound(t', c, a) && KeepsOthers(w.table, t', c)
    ensures CallersSound(t', w.callers[c := a])
  {
    forall d | d in w.callers && d != c
      ensures CallerSound(t', d, w.callers[d])
    {
      assert CallerSound(w.table, d, w.callers[d]);
      hide CallerSound;
      StaysSound(w.table, t', d, w.callers[d]);
    }
  }

  function UsesOf(w: World, c: CallerID): set<LockID> {
    if c in w.callers then Uses(w.callers[c]) else {}
  }

  /** A lock of which caller `c` neither gains nor drops a reference stays sound. */
  lemma LockStays(w: World, t': Table, c: CallerID, a: Caller, id: LockID)
    requires id in w.table.locks && LockSound(w, id) && id in t'.locks && w.table.next <= t'.next
    requires id in Uses(a) <==> id in UsesOf(w, c)
    requires t'.locks[id].(gate := w.table.locks[id].gate) == w.table.locks[id]
    requires Listed(t', id) <==> Listed(w.table, id)
    requires t'.locks[id].gate.Some? && t'.locks[id].gate != Some(c) ==> t'.locks[id].gate == w.table.locks[id].gate
    requires t'.locks[id].gate == Some(c) ==> id in a.held
    ensures LockSound(World(t', w.callers[c := a]), id)
  {
    UsersAfter(w.callers, c, a, id);
    hide Uses;
    hide UsersOf;
    assert Users(World(t', w.callers[c := a]), id) == Users(w, id);
  }

  /** A change of phase that touches no lock: arriving, giving up waiting, starting to unlock. */
  lemma RephaseKeeps(w: World, c: CallerID, a: Caller)
    requires Inv(w) && CallerSound(w.table, c, a)
    requires Uses(a) == UsesOf(w, c)
    requires a.held == if c in w.callers then w.callers[c].held else []
    ensures Inv(w.(callers := w.callers[c := a]))
  {
    OthersStay(w, w.table, c, a);
    forall id | id in w.table.locks
      ensures LockSound(w.(callers := w.callers[c := a]), id)
    {
      assert LockSound(w, id);
      LockStays(w, w.table, c, a, id);
    }
  }

  lemma EndKeeps(w: World, c: CallerID)
    requires Inv(w) && Enabled(w, Ends(c))
    ensures Inv(Then(w, Ends(c)))
  {
    var w' := Then(w, Ends(c));
    forall id | id in w'.table.locks
      ensures LockSound(w', id)
    {
      assert LockSound(w, id);
      assert Users(w', id) == Users(w, id);
    }
  }

  lemma NobodyUses(w: World, id: LockID)
    requires Inv(w) && id !in w.table.locks
    ensures Users(w, id) == {}
  {
    forall c | c in w.callers
      ensures id !in Uses(w.callers[c])
    {
      DistinctLocks(w.table, c, w.callers[c]);
    }
  }

  predicate Numbered(t: Table) {
    forall id :: id in t.locks ==> id < t.next
  }

  lemma LocksAreNumbered(w: World)
    requires LocksSound(w)
    ensures Numbered(w.table)
  {
    assert forall id :: id in w.table.locks ==> LockSound(w, id);
  }

  /** What reserving does to the table: one lock gains a reference and is listed, the others stay. */
  lemma ReserveEffect(t: Table, c: CallerID, key: Key)
    requires Known(t) && Numbered(t)
    ensures var (t', id) := Reserved(t, key);
            && KeepsOthers(t, t', c) && Known(t') && id in t'.locks && t'.locks[id].key == key && Listed(t', id)
            && id < t'.next
            && t'.locks[id].refs == (if id in t.locks then t.locks[id].refs else 0) + 1
            && (if id in t.locks then t'.locks[id].gate == t.locks[id].gate else t'.locks[id].gate.None?)
            && t'.locks.Keys == t.locks.Keys + {id}
            && (forall i :: i in t.locks && i != id ==> t'.locks[i] == t.locks[i] && (Listed(t', i) <==> Listed(t, i)))
  {}

  lemma ReserveIsSound(w: World, c: CallerID)
    requires Inv(w) && Enabled(w, Reserves(c))
    ensures var a := w.callers[c];
            var (t', id) := Reserved(w.table, a.keys[|a.held|]);
            CallerSound(t', c, a.(phase := Waiting(id))) && KeepsOthers(w.table, t', c)
            && id !in Uses(a) && Uses(a.(phase := Waiting(id))) == Uses(a) + {id}
  {
    var a := w.callers[c];
    var (t', id) := Reserved(w.table, a.keys[|a.held|]);
    var a' := a.(phase := Waiting(id));
    LocksAreNumbered(w);
    ReserveEffect(w.table, c, a.keys[|a.held|]);
    hide Reserved;
    hide LockSound;
    StaysSound(w.table, t', c, a);
    assert a.keys[..Asked(a)] == a.keys[..|a.held|];
    NextKeyIsGreater(a);
    assert a.keys[..Asked(a')] == a.keys[..|a.held|+1];
    DistinctLocks(t', c, a');
  }

  lemma ReserveKeeps(w: World, c: CallerID)
    requires Inv(w) && Enabled(w, Reserves(c))
    ensures Inv(Then(w, Reserves(c)))
  {
    var a := w.callers[c];
    var (t', id) := Reserved(w.table, a.keys[|a.held|]);
    var a' := a.(phase := Waiting(id));
    var w' := World(t', w.callers[c := a']);
    assert Then(w, Reserves(c)) == w';
    ReserveIsSound(w, c);
    LocksAreNumbered(w);
    ReserveEffect(w.table, c, a.keys[|a.held|]);
    OthersStay(w, t', c, a');
    hide Reserved;
    hide CallersSound;
    hide Uses;
    hide UsersOf;
    forall i | i in t'.locks
      ensures LockSound(w', i)
    {
      if i != id {
        assert LockSound(w, i);
        LockStays(w, t', c, a', i);
      } else {
        if i in w.table.locks { assert LockSound(w, i); } else { NobodyUses(w, i); }
        GainsReference(w, t', c, a', i);
      }
    }
  }

  /** The lock that gains a reference from caller `c`. */
  lemma GainsReference(w: World, t': Table, c: CallerID, a: Caller, id: LockID)
    requires c in w.callers && id !in Uses(w.callers[c]) && id in Uses(a) && a.held == w.callers[c].held
    requires if id in w.table.locks then LockSound(w, id) else Users(w, id) == {}
    requires id in t'.locks && id < t'.next && Listed(t', id)
    requires t'.locks[id].refs == (if id in w.table.locks then w.table.locks[id].refs else 0) + 1
    requires if id in w.table.locks then t'.locks[id].gate == w.table.locks[id].gate else t'.locks[id].gate.None?
    ensures LockSound(World(t', w.callers[c := a]), id)
  {
    UsersAfter(w.callers, c, a, id);
    hide Uses;
    hide UsersOf;
    assert Users(World(t', w.callers[c := a]), id) == Users(w, id) + {c};
  }

  /** Putting a token into a gate or taking it out moves no reference. */
  lemma GateMoves(w: World, c: CallerID, a: Caller, id: LockID, gate: Option<CallerID>)
    requires LocksSound(w) && c in w.callers && Uses(a) == Uses(w.callers[c]) && id in w.table.locks
    requires gate.None? || (gate == Some(c) && id in a.held)
    requires forall i :: i in w.callers[c].held && i != id ==> i in a.held
    ensures LocksSound(World(Gated(w.table, id, gate), w.callers[c := a]))
  {
    hide Uses;
    hide UsersOf;
    var t' := Gated(w.table, id, gate);
    forall i | i in t'.locks
      ensures LockSound(World(t', w.callers[c := a]), i)
    {
      assert LockSound(w, i);
      LockStays(w, t', c, a, i);
    }
  }

  lemma GatedEffect(t: Table, c: CallerID, id: LockID, gate: Option<CallerID>)
    requires Known(t) && id in t.locks && (t.locks[id].gate.None? || t.locks[id].gate == Some(c))
    ensures Known(Gated(t, id, gate)) && KeepsOthers(t, Gated(t, id, gate), c)
  {}

  lemma EnterIsSound(w: World, c: CallerID)
    requires Inv(w) && Enabled(w, Enters(c))
    ensures var a := w.callers[c];
            var id := a.phase.lock;
            var a' := a.(held := a.held + [id], phase := Ready);
            CallerSound(Gated(w.table, id, Some(c)), c, a') && Uses(a') == Uses(a)
  {
    var a := w.callers[c];
    var id := a.phase.lock;
    var t' := Gated(w.table, id, Some(c));
    var a' := a.(held := a.held + [id], phase := Ready);
    assert a'.keys[..Asked(a')] == a.keys[..Asked(a)];
    hide LockSound;
    StaysSound(w.table, t', c, a);
    forall i | 0 <= i < |a'.held|
      ensures Holds(t', c, a'.held[i], a'.keys[i])
    {
      if i < |a.held| { assert Holds(t', c, a.held[i], a.keys[i]); }
    }
  }

  lemma EnterKeeps(w: World, c: CallerID)
    requires Inv(w) && Enabled(w, Enters(c))
    ensures var a := w.callers[c];
            var id := a.phase.lock;
            Inv(World(Gated(w.table, id, Some(c)), w.callers[c := a.(held := a.held + [id], phase := Ready)]))
  {
    EnterIsSound(w, c);
    hide CallerSound;
    hide CallersSound;
    hide LockSound;
    hide LocksSound;
    hide Uses;
    var a := w.callers[c];
    var id := a.phase.lock;
    GatedEffect(w.table, c, id, Some(c));
    hide KeepsOthers;
    hide Known;
    OthersStay(w, Gated(w.table, id, Some(c)), c, a.(held := a.held + [id], phase := Ready));
    GateMoves(w, c, a.(held := a.held + [id], phase := Ready), id, Some(c));
  }

  lemma OpenIsSound(w: World, c: CallerID)
    requires Inv(w) && Enabled(w, OpensGate(c))
    ensures var a := w.callers[c];
            var n := |a.held| - 1;
            var id := a.held[n];
            var a' := a.(held := a.held[..n], phase := Dropping(id));
            && w.table.locks[id].gate == Some(c)
            && CallerSound(Gated(w.table, id, None), c, a') && Uses(a') == Uses(a)
            && (forall i :: i in a.held && i != id ==> i in a'.held)
  {
    var a := w.callers[c];
    var n := |a.held| - 1;
    var id := a.held[n];
    var t' := Gated(w.table, id, None);
    var a' := a.(held := a.held[..n], phase := Dropping(id));
    DistinctLocks(w.table, c, a);
    hide LockSound;
    assert Holds(w.table, c, id, a.keys[n]);
    forall i | 0 <= i < |a'.held|
      ensures Holds(t', c, a'.held[i], a'.keys[i])
    {
      assert Holds(w.table, c, a.held[i], a.keys[i]);
      assert a.held[i] != a.held[n];
    }
    assert a'.keys[..Asked(a')] == a.keys[..Asked(a)];
    assert a.held == a'.held + [id];
  }

  lemma OpenKeeps(w: World, c: CallerID)
    requires Inv(w) && Enabled(w, OpensGate(c))
    ensures var a := w.callers[c];
            var n := |a.held| - 1;
            Inv(World(Gated(w.table, a.held[n], None),
                      w.callers[c := a.(held := a.held[..n], phase := Dropping(a.held[n]))]))
  {
    OpenIsSound(w, c);
    hide CallerSound;
    hide CallersSound;
    hide LockSound;
    hide LocksSound;
    hide Uses;
    var a := w.callers[c];
    var id := a.held[|a.held|-1];
    var t' := Gated(w.table, id, None);
    var a' := a.(held := a.held[..|a.held|-1], phase := Dropping(id));
    GatedEffect(w.table, c, id, None);
    hide KeepsOthers;
    hide Known;
    OthersStay(w, t', c, a');
    GateMoves(w, c, a', id, None);
  }

  lemma ReleaseIsSound(w: World, c: CallerID)
    requires Inv(w) && c in w.callers && HasPending(w.callers[c])
    ensures var a := w.callers[c];
            var a' := a.(phase := Unlocking);
            && a.phase.lock in w.table.locks
            && CallerSound(Released(w.table, a.phase.lock), c, a')
            && a.phase.lock in Uses(a) && Uses(a') == Uses(a) - {a.phase.lock}
  {
    var a := w.callers[c];
    var a' := a.(phase := Unlocking);
    DistinctLocks(w.table, c, a);
    StaysSound(w.table, Released(w.table, a.phase.lock), c, a);
    assert a'.keys[..Asked(a')] == a.keys[..Asked(a)][..Asked(a')];
  }

  /** What releasing does to the table: the lock loses a reference and its entry with the last one. */
  lemma ReleaseEffect(t: Table, c: CallerID, id: LockID)
    requires Known(t) && id in t.locks && Listed(t, id)
    ensures var t' := Released(t, id);
            && KeepsOthers(t, t', c) && Known(t') && t'.next == t.next && t'.locks.Keys == t.locks.Keys
            && t'.locks[id] == t.locks[id].(refs := t.locks[id].refs - 1)
            && (Listed(t', id) <==> t'.locks[id].refs != 0)
            && (forall i :: i in t.locks && i != id ==> t'.locks[i] == t.locks[i] && (Listed(t', i) <==> Listed(t, i)))
  {}

  /** Dropping the reference to the pending lock, after a canceled wait or after opening the gate. */
  lemma ReleaseKeeps(w: World, c: CallerID)
    requires Inv(w) && c in w.callers && HasPending(w.callers[c]) && w.callers[c].phase.lock in w.table.locks
    ensures var a := w.callers[c];
            Inv(World(Released(w.table, a.phase.lock), w.callers[c := a.(phase := Unlocking)]))
  {
    var a := w.callers[c];
    var id := a.phase.lock;
    var t' := Released(w.table, id);
    var a' := a.(phase := Unlocking);
    var w' := World(t', w.callers[c := a']);
    ReleaseIsSound(w, c);
    assert c in Users(w, id);
    assert LockSound(w, id);
    ReleaseEffect(w.table, c, id);
    hide Released;
    hide CallerSound;
    hide CallersSound;
    hide LockSound;
    hide Uses;
    hide UsersOf;
    hide KeepsOthers;
    hide Known;
    OthersStay(w, t', c, a');
    forall i | i in t'.locks
      ensures LockSound(w', i)
    {
      assert LockSound(w, i);
      if i != id {
        LockStays(w, t', c, a', i);
      } else {
        DropsOne(w, t', c, a', i);
      }
    }
  }

  lemma DropsOne(w: World, t': Table, c: CallerID, a: Caller, id: LockID)
    requires c in w.callers && id in Uses(w.callers[c]) && id !in Uses(a) && a.held == w.callers[c].held
    requires id in w.table.locks && LockSound(w, id)
    requires id in t'.locks && t'.next == w.table.next && (Listed(t', id) <==> t'.locks[id].refs != 0)
    requires t'.locks[id] == w.table.locks[id].(refs := w.table.locks[id].refs - 1)
    ensures LockSound(World(t', w.callers[c := a]), id)
  {
    UsersAfter(w.callers, c, a, id);
    hide Uses;
    hide UsersOf;
    assert Users(World(t', w.callers[c := a]), id) == Users(w, id) - {c};
  }

  lemma ArriveKeeps(w: World, c: CallerID, keys: seq<Key>)
    requires Inv(w) && Enabled(w, Arrives(c, keys))
    ensures Inv(Then(w, Arrives(c, keys)))
  {
    assert keys[..0] == [];
    RephaseKeeps(w, c, Caller(keys, [], Ready));
  }

  lemma CancelKeeps(w: World, c: CallerID)
    requires Inv(w) && Enabled(w, Cancels(c))
    ensures Inv(Then(w, Cancels(c)))
  {
    RephaseKeeps(w, c, w.callers[c].(phase := Canceling(w.callers[c].phase.lock)));
  }

  lemma StartUnlockKeeps(w: World, c: CallerID)
    requires Inv(w) && Enabled(w, StartsUnlocking(c))
    ensures Inv(Then(w, StartsUnlocking(c)))
  {
    RephaseKeeps(w, c, w.callers[c].(phase := Unlocking));
  }

  lemma StepKeeps(w: World, step: Step)
    requires Inv(w) && Enabled(w, step)
    ensures Inv(Then(w, step))
  {
    match step
    case Arrives(c, keys) => ArriveKeeps(w, c, keys);
    case Reserves(c) => ReserveKeeps(w, c);
    case Enters(c) => EnterKeeps(w, c);
    case Cancels(c) => CancelKeeps(w, c);
    case LeavesQueue(c) => ReleaseKeeps(w, c);
    case StartsUnlocking(c) => StartUnlockKeeps(w, c);
    case OpensGate(c) => OpenKeeps(w, c);
    case DropsReference(c) => ReleaseKeeps(w, c);
    case Ends(c) => EndKeeps(w, c);
  }

  // ---------- runs ----------

  const Idle: World := World(Table(map[], map[], 0), map[])

  predicate Follows(w: World, steps: seq<Step>)
    decreases |steps|
  {
    steps == [] || (Known(w.table) && Enabled(w, steps[0]) && Follows(Then(w, steps[0]), steps[1..]))
  }

  function After(w: World, steps: seq<Step>): World
    requires Follows(w, steps)
    decreases |steps|
  {
    if steps == [] then w else After(Then(w, steps[0]), steps[1..])
  }

  lemma {:induction false} RunKeeps(w: World, steps: seq<Step>)
    requires Inv(w) && Follows(w, steps)
    ensures Inv(After(w, steps))
    decreases |steps|
  {
    if steps != [] {
      StepKeeps(w, steps[0]);
      RunKeeps(Then(w, steps[0]), steps[1..]);
    }
  }

  ghost predicate Reachable(w: World) {
    exists steps :: Follows(Idle, steps) && After(Idle, steps) == w
  }

  lemma ReachableSound(w: World)
    requires Reachable(w)
    ensures Inv(w)
  {
    var steps :| Follows(Idle, steps) && After(Idle, steps) == w;
    RunKeeps(Idle, steps);
  }

  // ---------- safety ----------

  /** Caller `c` is between the send on the gate for `key` and the receive from it. */
  predicate HasKey(w: World, c: CallerID, key: Key) {
    c in w.callers && |w.callers[c].held| <= |w.callers[c].keys| && key in w.callers[c].keys[..|w.callers[c].held|]
  }

  /** At most one caller holds a key. */
  lemma OneHolderPerKey(w: World, c: CallerID, d: CallerID, key: Key)
    requires Reachable(w) && HasKey(w, c, key) && HasKey(w, d, key)
    ensures c == d
  {
    ReachableSound(w);
    var i :| 0 <= i < |w.callers[c].held| && w.callers[c].keys[i] == key;
    var j :| 0 <= j < |w.callers[d].held| && w.callers[d].keys[j] == key;
    assert Holds(w.table, c, w.callers[c].held[i], key) && Holds(w.table, d, w.callers[d].held[j], key);
    var one, other := w.callers[c].held[i], w.callers[d].held[j];
    assert c in Users(w, one) && d in Users(w, other);
    assert LockSound(w, one) && LockSound(w, other);
  }

  /** While a lock is held or awaited, newcomers for its key get this lock and no other; so its gate is
      never replaced, and all who hold or await the key share it. */
  lemma GateNeverReplaced(w: World, c: CallerID, d: CallerID, mine: LockID, other: LockID)
    requires Reachable(w) && c in w.callers && mine in Uses(w.callers[c])
    requires d in w.callers && other in Uses(w.callers[d])
    ensures mine in w.table.locks && other in w.table.locks
    ensures w.table.locks[mine].key == w.table.locks[other].key ==> mine == other
    ensures Known(w.table) && Reserved(w.table, w.table.locks[mine].key).1 == mine
  {
    ReachableSound(w);
    DistinctLocks(w.table, c, w.callers[c]);
    DistinctLocks(w.table, d, w.callers[d]);
    assert c in Users(w, mine) && d in Users(w, other);
    assert LockSound(w, mine) && LockSound(w, other);
  }

  /** No entry outlives its last user, and no reference count goes wrong. */
  lemma IdleTableIsEmpty(w: World)
    requires Reachable(w) && w.callers == map[]
    ensures w.table.items == map[] && forall id :: id in w.table.locks ==> w.table.locks[id].refs == 0
  {
    ReachableSound(w);
    forall id | id in w.table.locks
      ensures !Listed(w.table, id) && w.table.locks[id].refs == 0
    {
      assert LockSound(w, id);
      assert Users(w, id) == {};
    }
    forall key | key in w.table.items
      ensures false
    {
      assert Listed(w.table, w.table.items[key]);
    }
  }

  // ---------- progress ----------

  /** A step by which a caller that is already there gets on without giving up. */
  predicate Advances(step: Step) {
    !step.Arrives? && !step.Cancels?
  }

  function NextKey(w: World, c: CallerID): Key
    requires c in w.callers && |w.callers[c].held| < |w.callers[c].keys|
  {
    w.callers[c].keys[|w.callers[c].held|]
  }

  predicate AllUnfinished(w: World, callers: set<CallerID>) {
    forall c :: c in callers ==> c in w.callers && |w.callers[c].held| < |w.callers[c].keys|
  }

  lemma {:induction false} GreatestNextKey(w: World, callers: set<CallerID>) returns (c: CallerID)
    requires callers != {} && AllUnfinished(w, callers)
    ensures c in callers && forall d :: d in callers ==> !Less(NextKey(w, c), NextKey(w, d))
  {
    var any :| any in callers;
    LessIrreflexive(NextKey(w, any));
    if callers == {any} { return any; }
    var best := GreatestNextKey(w, callers - {any});
    if Less(NextKey(w, best), NextKey(w, any)) {
      forall d | d in callers && Less(NextKey(w, any), NextKey(w, d))
        ensures d == any
      {
        LessTransitive(NextKey(w, best), NextKey(w, any), NextKey(w, d));
      }
      return any;
    }
    return best;
  }

  /** A caller that does not wait for a gate can always go on. */
  lemma OthersCanStep(w: World, c: CallerID) returns (step: Step)
    requires Inv(w) && c in w.callers && !w.callers[c].phase.Waiting?
    ensures Enabled(w, step) && Advances(step)
  {
    var a := w.callers[c];
    assert CallerSound(w.table, c, a);
    match a.phase
    case Ready => step := if WantsMore(a) then Reserves(c) else StartsUnlocking(c);
    case Canceling(_) => step := LeavesQueue(c);
    case Dropping(_) => step := DropsReference(c);
    case Unlocking =>
      if a.held == [] {
        step := Ends(c);
      } else {
        assert Holds(w.table, c, a.held[|a.held|-1], a.keys[|a.held|-1]);
        step := OpensGate(c);
      }
    case Waiting(_) => step := Ends(c);
  }

  /** The holder of the gate another caller waits for, if it waits too, waits for a greater key. */
  lemma HolderWaitsHigher(w: World, c: CallerID, d: CallerID)
    requires Inv(w) && c in w.callers && w.callers[c].phase.Waiting?
    requires d in w.callers && w.callers[d].phase.Waiting? && w.callers[c].phase.lock in w.callers[d].held
    ensures AllUnfinished(w, {c, d}) && Less(NextKey(w, c), NextKey(w, d))
  {
    var a, b := w.callers[c], w.callers[d];
    assert CallerSound(w.table, c, a) && CallerSound(w.table, d, b);
    var i :| 0 <= i < |b.held| && b.held[i] == a.phase.lock;
    assert Holds(w.table, d, b.held[i], b.keys[i]);
    assert Less(b.keys[..Asked(b)][i], b.keys[..Asked(b)][|b.held|]);
  }

  lemma SoundCanStep(w: World) returns (step: Step)
    requires Inv(w) && w.callers != map[]
    ensures Enabled(w, step) && Advances(step)
  {
    if c :| c in w.callers && !w.callers[c].phase.Waiting? {
      step := OthersCanStep(w, c);
      return;
    }
    assert AllUnfinished(w, w.callers.Keys) by {
      forall c | c in w.callers
        ensures |w.callers[c].held| < |w.callers[c].keys|
      {
        assert CallerSound(w.table, c, w.callers[c]);
      }
    }
    assert w.callers.Keys != {};
    var c := GreatestNextKey(w, w.callers.Keys);
    var lock := w.callers[c].phase.lock;
    assert CallerSound(w.table, c, w.callers[c]);
    assert LockSound(w, lock);
    var gate := w.table.locks[lock].gate;
    if gate.Some? { HolderWaitsHigher(w, c, gate.value); }
    step := Enters(c);
  }

  /** No deadlock: while any caller is there, one of them can take a step without giving up its wait. */
  lemma SomeoneCanStep(w: World)
    requires Reachable(w) && w.callers != map[]
    ensures exists step :: Enabled(w, step) && Advances(step)
  {
    ReachableSound(w);
    var step := SoundCanStep(w);
  }

  // ---------- every caller gets through ----------

  /** The most steps a caller can still take. */
  function Work(a: Caller): int {
    match a.phase
    case Ready => 4 * |a.keys| - 2 * |a.held| + 2
    case Waiting(_) => 4 * |a.keys| - 2 * |a.held| + 1
    case Canceling(_) => 2 * |a.held| + 2
    case Unlocking => 2 * |a.held| + 1
    case Dropping(_) => 2 * |a.held| + 2
  }

  ghost function TotalWork(callers: map<CallerID, Caller>): int
    decreases |callers|
  {
    if callers == map[] then 0
    else
      var c :| c in callers;
      Work(callers[c]) + TotalWork(callers - {c})
  }

  lemma {:induction false} TotalWithout(callers: map<CallerID, Caller>, c: CallerID)
    requires c in callers
    ensures TotalWork(callers) == Work(callers[c]) + TotalWork(callers - {c})
    decreases |callers|
  {
    var d :| d in callers && TotalWork(callers) == Work(callers[d]) + TotalWork(callers - {d});
    if c != d {
      TotalWithout(callers - {d}, c);
      TotalWithout(callers - {c}, d);
      assert callers - {d} - {c} == callers - {c} - {d};
    }
  }

  lemma TotalWith(callers: map<CallerID, Caller>, c: CallerID, a: Caller)
    requires c in callers
    ensures TotalWork(callers[c := a]) == TotalWork(callers) - Work(callers[c]) + Work(a)
  {
    TotalWithout(callers, c);
    TotalWithout(callers[c := a], c);
    assert callers[c := a] - {c} == callers - {c};
  }

  lemma {:induction false} TotalIsPositive(t: Table, callers: map<CallerID, Caller>)
    requires CallersSound(t, callers)
    ensures TotalWork(callers) >= 0
    decreases |callers|
  {
    if callers != map[] {
      var c :| c in callers;
      TotalWithout(callers, c);
      assert CallerSound(t, c, callers[c]);
      assert Work(callers[c]) >= 0;
      TotalIsPositive(t, callers - {c});
    }
  }

  lemma StepLessens(w: World, step: Step)
    requires Inv(w) && Enabled(w, step) && !step.Arrives? && !step.Ends?
    ensures var c := step.caller;
            c in w.callers && c in Then(w, step).callers && Work(Then(w, step).callers[c]) < Work(w.callers[c])
            && Then(w, step).callers == w.callers[c := Then(w, step).callers[c]]
  {
    assert CallerSound(w.table, step.caller, w.callers[step.caller]);
  }

  lemma StepWorks(w: World, step: Step)
    requires Inv(w) && Enabled(w, step) && !step.Arrives?
    ensures TotalWork(Then(w, step).callers) < TotalWork(w.callers)
  {
    var c := step.caller;
    if step.Ends? {
      TotalWithout(w.callers, c);
    } else {
      StepLessens(w, step);
      var a := Then(w, step).callers[c];
      hide *;
      TotalWith(w.callers, c, a);
      assert TotalWork(Then(w, step).callers) < TotalWork(w.callers);
    }
  }

  lemma {:induction false} SoundRunsEnd(w: World, steps: seq<Step>)
    requires Inv(w) && Follows(w, steps) && forall s :: s in steps ==> !s.Arrives?
    ensures |steps| <= TotalWork(w.callers)
    decreases |steps|
  {
    if steps == [] {
      TotalIsPositive(w.table, w.callers);
    } else {
      StepWorks(w, steps[0]);
      StepKeeps(w, steps[0]);
      SoundRunsEnd(Then(w, steps[0]), steps[1..]);
    }
  }

  /** Once nobody else arrives, a run is bounded by the remaining work, whatever the interleaving and
      whoever gives up waiting; and a run that cannot go on without giving up has let every caller out. */
  lemma RunsEndWithEveryoneOut(w: World, steps: seq<Step>)
    requires Reachable(w) && Follows(w, steps) && forall s :: s in steps ==> !s.Arrives?
    ensures |steps| <= TotalWork(w.callers)
    ensures (forall s :: Enabled(After(w, steps), s) ==> !Advances(s)) ==> After(w, steps).callers == map[]
  {
    ReachableSound(w);
    SoundRunsEnd(w, steps);
    RunKeeps(w, steps);
    if After(w, steps).callers != map[] {
      var s := SoundCanStep(After(w, steps));
    }
  }
}
