/** The net change of one run (internal/runner/diff_tracker.go) and its guarded
    undo (internal/runner/diff_store.go). */
module RunDiff {
  import opened Basics
  import opened LineStats

  type Path = string
  type Text = string
  type Content = Option<Text>
  type Disk = map<Path, Text>

  datatype Operation = Add | Update | Delete

  /** One file change that has reached the disk; also one line of a saved diff. */
  datatype Change = Change(path: Path, operation: Operation, before: Content, after: Content)

  datatype Delta = Delta(exact: bool, changes: seq<Change>)

  datatype Net = Net(baseline: Content, current: Content)

  /** The tracker without its line counts. */
  datatype Tracker = Tracker(exact: bool, files: map<Path, Net>)

  function At(disk: Disk, path: Path): Content {
    if path in disk then Some(disk[path]) else None
  }

  function Put(disk: Disk, path: Path, content: Content): Disk {
    if content.Some? then disk[path := content.value] else disk - {path}
  }

  function NetOperation(before: Content, after: Content): Operation {
    if before.None? then Add else if after.None? then Delete else Update
  }

  /** `validAppliedChange`; `utf8` says which byte strings are valid UTF-8. */
  predicate ValidChange(utf8: Text -> bool, c: Change) {
    && c.path != ""
    && (c.before.Some? ==> utf8(c.before.value))
    && (c.after.Some? ==> utf8(c.after.value))
    && match c.operation
       case Add => c.before.None? && c.after.Some?
       case Update => c.before.Some? && c.after.Some?
       case Delete => c.before.Some? && c.after.None?
  }

  const Lost: Tracker := Tracker(false, map[])

  function Step(utf8: Text -> bool, t: Tracker, c: Change): Tracker {
    if !t.exact then t
    else if !ValidChange(utf8, c) then Lost
    else if c.path in t.files && t.files[c.path].current != c.before then Lost
    else
      var baseline := if c.path in t.files then t.files[c.path].baseline else c.before;
      if baseline == c.after then Tracker(true, t.files - {c.path})
      else Tracker(true, t.files[c.path := Net(baseline, c.after)])
  }

  function Steps(utf8: Text -> bool, t: Tracker, changes: seq<Change>): Tracker {
    if changes == [] then t else Step(utf8, Steps(utf8, t, changes[..|changes|-1]), changes[|changes|-1])
  }

  function Applied(utf8: Text -> bool, t: Tracker, delta: Delta): Tracker {
    if !t.exact then t else if !delta.exact then Lost else Steps(utf8, t, delta.changes)
  }

  function AppliedAll(utf8: Text -> bool, t: Tracker, deltas: seq<Delta>): Tracker {
    if deltas == [] then t else Applied(utf8, AppliedAll(utf8, t, deltas[..|deltas|-1]), deltas[|deltas|-1])
  }

  /** What switches the diff off: a change without a path, one with a content that is no text, one whose contents do not
      fit its operation, and one that does not start from the tracked content. Nothing else does. */
  lemma LosesExactly(utf8: Text -> bool, t: Tracker, c: Change)
    requires t.exact
    ensures Step(utf8, t, c).exact <==>
              && c.path != ""
              && (forall text :: (c.before == Some(text) || c.after == Some(text)) ==> utf8(text))
              && (c.before.None? <==> c.operation == Add) && (c.after.None? <==> c.operation == Delete)
              && (c.path in t.files ==> c.before == t.files[c.path].current)
  {}

  // ---------- the tracker holds the difference from the start of the run ----------

  /** The exact difference between two disks. */
  function NetDiff(start: Disk, now: Disk): map<Path, Net> {
    map p | p in start.Keys + now.Keys && At(start, p) != At(now, p) :: Net(At(start, p), At(now, p))
  }

  lemma NetDiffMembers(start: Disk, now: Disk, p: Path)
    ensures p in NetDiff(start, now) <==> At(start, p) != At(now, p)
    ensures p in NetDiff(start, now) ==> NetDiff(start, now)[p] == Net(At(start, p), At(now, p))
  {}

  function After(disk: Disk, changes: seq<Change>): Disk {
    if changes == [] then disk
    else Put(After(disk, changes[..|changes|-1]), changes[|changes|-1].path, changes[|changes|-1].after)
  }

  /** Every change is well formed and starts from the content its path has at that moment. */
  predicate Faithful(utf8: Text -> bool, disk: Disk, changes: seq<Change>) {
    forall i :: 0 <= i < |changes| ==>
      ValidChange(utf8, changes[i]) && changes[i].before == At(After(disk, changes[..i]), changes[i].path)
  }

  function AfterAll(disk: Disk, deltas: seq<Delta>): Disk {
    if deltas == [] then disk else After(AfterAll(disk, deltas[..|deltas|-1]), deltas[|deltas|-1].changes)
  }

  predicate FaithfulRun(utf8: Text -> bool, start: Disk, deltas: seq<Delta>) {
    forall i :: 0 <= i < |deltas| ==>
      deltas[i].exact && Faithful(utf8, AfterAll(start, deltas[..i]), deltas[i].changes)
  }

  lemma StepTracksNetDiff(utf8: Text -> bool, start: Disk, now: Disk, c: Change)
    requires ValidChange(utf8, c) && c.before == At(now, c.path)
    ensures Step(utf8, Tracker(true, NetDiff(start, now)), c) == Tracker(true, NetDiff(start, Put(now, c.path, c.after)))
  {
    var t, next := Tracker(true, NetDiff(start, now)), Put(now, c.path, c.after);
    NetDiffMembers(start, now, c.path);
    assert t.files.Keys - {c.path} == NetDiff(start, next).Keys - {c.path};
    forall p | p != c.path
      ensures At(next, p) == At(now, p)
    {}
    assert At(next, c.path) == c.after;
    forall p
      ensures p in NetDiff(start, next) <==> p in Step(utf8, t, c).files
      ensures p in NetDiff(start, next) ==> NetDiff(start, next)[p] == Step(utf8, t, c).files[p]
    {
      NetDiffMembers(start, next, p);
      NetDiffMembers(start, now, p);
    }
    assert Step(utf8, t, c).files == NetDiff(start, next);
  }

  lemma {:induction false} StepsTrackNetDiff(utf8: Text -> bool, start: Disk, now: Disk, changes: seq<Change>)
    requires Faithful(utf8, now, changes)
    ensures Steps(utf8, Tracker(true, NetDiff(start, now)), changes) == Tracker(true, NetDiff(start, After(now, changes)))
  {
    if changes != [] {
      var front, last := changes[..|changes|-1], changes[|changes|-1];
      assert forall i :: 0 <= i < |front| ==> front[i] == changes[i] && front[..i] == changes[..i];
      StepsTrackNetDiff(utf8, start, now, front);
      StepTracksNetDiff(utf8, start, After(now, front), last);
    }
  }

  /** After any faithful run the tracker holds precisely the paths whose content differs
      from the start of the run, each with its start and its current content. */
  lemma {:induction false} RunTracksNetDiff(utf8: Text -> bool, start: Disk, deltas: seq<Delta>)
    requires FaithfulRun(utf8, start, deltas)
    ensures AppliedAll(utf8, Tracker(true, map[]), deltas) == Tracker(true, NetDiff(start, AfterAll(start, deltas)))
  {
    if deltas == [] {
      assert NetDiff(start, start) == map[];
    } else {
      var front, last := deltas[..|deltas|-1], deltas[|deltas|-1];
      assert forall i :: 0 <= i < |front| ==> front[i] == deltas[i] && front[..i] == deltas[..i];
      RunTracksNetDiff(utf8, start, front);
      StepsTrackNetDiff(utf8, start, AfterAll(start, front), last.changes);
    }
  }

  /** The change is well formed and starts from the content the tracker has for its path, if it has one. */
  predicate Trusted(utf8: Text -> bool, t: Tracker, c: Change) {
    ValidChange(utf8, c) && (c.path in t.files ==> t.files[c.path].current == c.before)
  }

  predicate TrustedAt(utf8: Text -> bool, t: Tracker, changes: seq<Change>, i: nat)
    requires i < |changes|
  {
    Trusted(utf8, Steps(utf8, t, changes[..i]), changes[i])
  }

  lemma TrustedFront(utf8: Text -> bool, t: Tracker, changes: seq<Change>, i: nat)
    requires i < |changes| - 1
    ensures TrustedAt(utf8, t, changes[..|changes|-1], i) == TrustedAt(utf8, t, changes, i)
  {
    assert changes[..|changes|-1][..i] == changes[..i];
  }

  /** A batch keeps the diff exactly when each of its changes can be trusted where it stands. */
  lemma {:induction false} ExactSteps(utf8: Text -> bool, t: Tracker, changes: seq<Change>)
    requires t.exact
    ensures Steps(utf8, t, changes).exact <==> forall i :: 0 <= i < |changes| ==> TrustedAt(utf8, t, changes, i)
  {
    if changes != [] {
      var n := |changes| - 1;
      ExactSteps(utf8, t, changes[..n]);
      assert Steps(utf8, t, changes).exact <==> Steps(utf8, t, changes[..n]).exact && TrustedAt(utf8, t, changes, n);
      forall i | 0 <= i < n
        ensures TrustedAt(utf8, t, changes[..n], i) == TrustedAt(utf8, t, changes, i)
      {
        TrustedFront(utf8, t, changes, i);
      }
      hide Steps, TrustedAt;
    }
  }

  /** A delta that is inexact, or that has a change which cannot be trusted where it stands. */
  predicate Untrusted(utf8: Text -> bool, t: Tracker, delta: Delta) {
    !delta.exact || exists i :: 0 <= i < |delta.changes| && !TrustedAt(utf8, t, delta.changes, i)
  }

  predicate UntrustedAt(utf8: Text -> bool, deltas: seq<Delta>, i: nat)
    requires i < |deltas|
  {
    Untrusted(utf8, AppliedAll(utf8, Tracker(true, map[]), deltas[..i]), deltas[i])
  }

  lemma DeltaKeepsExact(utf8: Text -> bool, t: Tracker, delta: Delta)
    ensures Applied(utf8, t, delta).exact <==> t.exact && !Untrusted(utf8, t, delta)
  {
    if t.exact { ExactSteps(utf8, t, delta.changes); }
    hide TrustedAt;
  }

  /** A run's diff is there exactly as long as every delta has been exact, well formed and in agreement with
      what the tracker knew. */
  lemma {:induction false} ExactRun(utf8: Text -> bool, deltas: seq<Delta>)
    ensures AppliedAll(utf8, Tracker(true, map[]), deltas).exact
            <==> forall i :: 0 <= i < |deltas| ==> !UntrustedAt(utf8, deltas, i)
  {
    if deltas != [] {
      var n := |deltas| - 1;
      ExactRun(utf8, deltas[..n]);
      DeltaKeepsExact(utf8, AppliedAll(utf8, Tracker(true, map[]), deltas[..n]), deltas[n]);
      forall i | 0 <= i < n
        ensures UntrustedAt(utf8, deltas[..n], i) == UntrustedAt(utf8, deltas, i)
      {
        assert deltas[..n][..i] == deltas[..i];
      }
      assert UntrustedAt(utf8, deltas, n) == Untrusted(utf8, AppliedAll(utf8, Tracker(true, map[]), deltas[..n]), deltas[n]);
      hide Untrusted, UntrustedAt, Applied;
    }
  }

  /** One untrustworthy delta switches the run's diff off for good: an inexact one, one with a malformed
      change, or one with a change whose old content disagrees with the tracked one. */
  lemma {:induction false} LostForever(utf8: Text -> bool, before: seq<Delta>, bad: Delta, later: seq<Delta>)
    requires Untrusted(utf8, AppliedAll(utf8, Tracker(true, map[]), before), bad) || exists c :: c in bad.changes && !ValidChange(utf8, c)
    ensures !AppliedAll(utf8, Tracker(true, map[]), before + [bad] + later).exact
  {
    var t := AppliedAll(utf8, Tracker(true, map[]), before);
    if later == [] {
      assert (before + [bad] + later)[..|before|] == before;
      if bad.exact && t.exact {
        if c :| c in bad.changes && !ValidChange(utf8, c) {
          BadChangeLoses(utf8, t, bad.changes, c);
        } else {
          DeltaKeepsExact(utf8, t, bad);
        }
      }
    } else {
      var all := before + [bad] + later;
      assert all[..|all|-1] == before + [bad] + later[..|later|-1];
      LostForever(utf8, before, bad, later[..|later|-1]);
    }
  }

  lemma {:induction false} BadChangeLoses(utf8: Text -> bool, t: Tracker, changes: seq<Change>, c: Change)
    requires c in changes && !ValidChange(utf8, c)
    ensures !Steps(utf8, t, changes).exact
  {
    if changes[|changes|-1] != c {
      assert c in changes[..|changes|-1];
      BadChangeLoses(utf8, t, changes[..|changes|-1], c);
    }
  }

  // ---------- the live tracker ----------

  datatype Stats = Stats(operation: Operation, additions: nat, deletions: nat)

  datatype TrackedFile = TrackedFile(baseline: Content, current: Content, stats: Stats)

  function Paths(files: seq<Change>): seq<Path> {
    seq(|files|, i requires 0 <= i < |files| => files[i].path)
  }

  /** `files` lists a net difference: sorted by path, one line for each path, with the
      net operation and both contents. */
  predicate Lists(files: seq<Change>, net: map<Path, Net>) {
    && StrictlySorted(Paths(files))
    && (forall i :: 0 <= i < |files| ==> files[i].path in net && files[i] == LineOf(files[i].path, net[files[i].path]))
    && (forall p :: p in net ==> p in Paths(files))
  }

  function LineOf(path: Path, net: Net): Change {
    Change(path, NetOperation(net.baseline, net.current), net.baseline, net.current)
  }

  /** Every line is a change in its own right, from what the run has found to what it has left. */
  lemma LinesAreChanges(utf8: Text -> bool, path: Path, net: Net)
    requires path != "" && net.baseline != net.current
    requires forall text :: net.baseline == Some(text) || net.current == Some(text) ==> utf8(text)
    ensures ValidChange(utf8, LineOf(path, net))
    ensures Step(utf8, Tracker(true, map[]), LineOf(path, net)) == Tracker(true, map[path := net])
  {}

  function NetsOf(files: map<Path, TrackedFile>): map<Path, Net> {
    map p | p in files :: Net(files[p].baseline, files[p].current)
  }

  lemma NetsFollow(files: map<Path, TrackedFile>, path: Path, file: TrackedFile)
    ensures NetsOf(files - {path}) == NetsOf(files) - {path}
    ensures NetsOf(files[path := file]) == NetsOf(files)[path := Net(file.baseline, file.current)]
  {}

  class TurnDiffTracker {
    const utf8: Text -> bool
    var exact: bool
    var files: map<Path, TrackedFile>

    ghost predicate Valid()
      reads this
    {
      && (!exact ==> files == map[])
      && forall p :: p in files ==> Counted(files[p])
    }

    ghost function View(): Tracker
      reads this
    {
      Tracker(exact, NetsOf(files))
    }

    constructor (utf8: Text -> bool)
      ensures Valid() && View() == Tracker(true, map[]) && this.utf8 == utf8
    {
      this.utf8 := utf8;
      exact, files := true, map[];
    }

    method Invalidate()
      modifies this
      ensures Valid() && View() == Lost
    {
      exact, files := false, map[];
    }

    method ApplyChange(change: Change, late: nat -> bool)
      requires Valid() && exact
      modifies this
      ensures Valid() && View() == Step(utf8, old(View()), change)
    {
      hide EditCounts, ContentLines;
      if !ValidChange(utf8, change) || (change.path in files && files[change.path].current != change.before) {
        Invalidate();
        return;
      }
      var baseline := if change.path in files then files[change.path].baseline else change.before;
      if baseline == change.after {
        NetsFollow(files, change.path, TrackedFile(None, None, Stats(Add, 0, 0)));
        files := files - {change.path};
      } else {
        var additions, deletions := DiffLineStats(baseline, change.after, late);
        var file := TrackedFile(baseline, change.after, Stats(NetOperation(baseline, change.after), additions, deletions));
        NetsFollow(files, change.path, file);
        files := files[change.path := file];
      }
    }

    method Apply(delta: Delta, late: nat -> bool)
      requires Valid()
      modifies this
      ensures Valid() && View() == Applied(utf8, old(View()), delta)
    {
      if !exact { return; }
      if !delta.exact {
        Invalidate();
        return;
      }
      for i := 0 to |delta.changes|
        invariant Valid() && exact
        invariant View() == Steps(utf8, old(View()), delta.changes[..i])
      {
        assert delta.changes[..i+1][..i] == delta.changes[..i];
        ApplyChange(delta.changes[i], late);
        if !exact {
          StaysLost(utf8, old(View()), delta.changes, i + 1);
          return;
        }
      }
      assert delta.changes[..|delta.changes|] == delta.changes;
    }

    method Snapshot() returns (list: seq<Change>, stats: seq<Stats>, ok: bool)
      requires Valid()
      ensures ok == exact
      ensures ok ==> Lists(list, View().files)
      ensures ok ==> |stats| == |list| && forall i :: 0 <= i < |list| ==> StatsOf(list[i], stats[i])
      ensures !ok ==> list == []
    {
      hide EditCounts, ContentLines;
      if !exact { return [], [], false; }
      var paths := SortStrings(files.Keys);
      list, stats := [], [];
      for i := 0 to |paths|
        invariant |list| == |stats| == i
        invariant forall j :: 0 <= j < i ==> paths[j] in files
                                             && list[j] == LineOf(paths[j], Net(files[paths[j]].baseline, files[paths[j]].current))
        invariant forall j :: 0 <= j < i ==> StatsOf(list[j], stats[j])
      {
        assert paths[i] in paths;
        var file := files[paths[i]];
        assert Counted(file);
        list := list + [Change(paths[i], file.stats.operation, file.baseline, file.current)];
        stats := stats + [file.stats];
      }
      assert Paths(list) == paths;
      return list, stats, true;
    }
  }

  /** The net operation and the counts of a smallest line edit, or of a full replacement where the table
      was too large. */
  ghost predicate StatsOf(line: Change, stats: Stats) {
    && stats.operation == line.operation
    && EditCounts(ContentLines(line.before), ContentLines(line.after), stats.additions, stats.deletions)
  }

  ghost predicate Counted(f: TrackedFile) {
    && f.baseline != f.current
    && f.stats.operation == NetOperation(f.baseline, f.current)
    && EditCounts(ContentLines(f.baseline), ContentLines(f.current), f.stats.additions, f.stats.deletions)
  }

  lemma {:induction false} StaysLost(utf8: Text -> bool, t: Tracker, changes: seq<Change>, i: nat)
    requires i <= |changes| && !Steps(utf8, t, changes[..i]).exact
    ensures Steps(utf8, t, changes) == Steps(utf8, t, changes[..i])
    decreases |changes|
  {
    if i < |changes| {
      assert changes[..|changes|-1][..i] == changes[..i];
      StaysLost(utf8, t, changes[..|changes|-1], i);
    } else {
      assert changes[..i] == changes;
    }
  }

  // ---------- the guarded undo ----------

  datatype UndoError = NotFound | Conflict | Active | FileError | StoreFailed

  datatype Body = Body(revision: nat, files: seq<Change>)

  /** An injective content hash with a mark for an absent file. */
  datatype Hash = AbsentHash | Sha256(content: Text)

  function ContentHash(content: Content): Hash {
    if content.None? then AbsentHash else Sha256(content.value)
  }

  /** `WriteFileIfUnchanged` and `RemoveFileIfUnchanged` on a disk without I/O failures. */
  function WriteIfUnchanged(disk: Disk, path: Path, text: Text, expected: Hash): Result<Disk, UndoError> {
    if expected == AbsentHash then
      if path in disk then Err(Conflict) else Ok(disk[path := text])
    else if path !in disk then Err(FileError)
    else if ContentHash(At(disk, path)) != expected then Err(Conflict)
    else Ok(disk[path := text])
  }

  function RemoveIfUnchanged(disk: Disk, path: Path, expected: Hash): Result<Disk, UndoError> {
    if path !in disk then Err(FileError)
    else if ContentHash(At(disk, path)) != expected then Err(Conflict)
    else Ok(disk - {path})
  }

  /** `revertFile`; the operation decides which of the three calls is made. */
  function RevertedFile(disk: Disk, file: Change): Result<Disk, UndoError> {
    match file.operation
    case Add => RemoveIfUnchanged(disk, file.path, ContentHash(file.after))
    case Update => if file.before.None? then Err(FileError)
                   else WriteIfUnchanged(disk, file.path, file.before.value, ContentHash(file.after))
    case Delete => if file.before.None? then Err(FileError)
                   else WriteIfUnchanged(disk, file.path, file.before.value, AbsentHash)
  }

  function IndexOf(files: seq<Change>, path: Path): (i: nat)
    ensures i <= |files|
    ensures i < |files| ==> files[i].path == path
    ensures forall j :: 0 <= j < i ==> files[j].path != path
  {
    if files == [] || files[0].path == path then 0 else 1 + IndexOf(files[1..], path)
  }

  function Without<T>(s: seq<T>, i: nat): seq<T>
    requires i < |s|
  {
    s[..i] + s[i+1..]
  }

  datatype Stored = Stored(disk: Disk, body: Option<Body>)

  function Reverted(s: Stored, active: bool, path: Path, expectedRevision: nat): Result<Stored, UndoError> {
    if active then Err(Active)
    else if s.body.None? then Err(NotFound)
    else if s.body.value.revision != expectedRevision then Err(Conflict)
    else
      var files := s.body.value.files;
      var i := IndexOf(files, path);
      if i == |files| then Err(NotFound)
      else match RevertedFile(s.disk, files[i])
        case Err(e) => Err(e)
        case Ok(disk) =>
          var rest := Without(files, i);
          Ok(Stored(disk, if rest == [] then None else Some(Body(expectedRevision + 1, rest))))
  }

  /** How storing the new diff can go: its body and its summary in the run record are two files. */
  datatype Save = Saved | BodyLost | SummaryLost

  /** The file of a finished undo with the diff from before it. */
  function HalfUndone(before: Stored, done: Stored): Stored {
    Stored(done.disk, before.body)
  }

  class DiffStore {
    var disk: Disk
    var body: Option<Body>

    ghost function View(): Stored
      reads this
    {
      Stored(disk, body)
    }

    constructor (disk: Disk, body: Option<Body>)
      ensures View() == Stored(disk, body)
    {
      this.disk, this.body := disk, body;
    }

    /** `RevertRunDiffFile`: a refused undo leaves disk and diff alone. When the new diff cannot be stored the
        caller is told so although the file has been put back already: either the stored diff is still the old
        one, or it is the new one and only its summary is missing. */
    method RevertRunDiffFile(active: bool, path: Path, expectedRevision: nat, save: Save) returns (r: Result<nat, UndoError>)
      modifies this
      ensures match Reverted(old(View()), active, path, expectedRevision)
              case Err(e) => r == Err(e) && View() == old(View())
              case Ok(s) =>
                match save
                case Saved => r == Ok(expectedRevision + 1) && View() == s
                case SummaryLost => r == Err(StoreFailed) && View() == s
                case BodyLost => r == Err(StoreFailed) && View() == HalfUndone(old(View()), s)
    {
      if active { return Err(Active); }
      if body.None? { return Err(NotFound); }
      if body.value.revision != expectedRevision { return Err(Conflict); }
      var files := body.value.files;
      var index := 0;
      while index < |files| && files[index].path != path
        invariant 0 <= index <= |files|
        invariant forall j :: 0 <= j < index ==> files[j].path != path
      {
        index := index + 1;
      }
      assert index == IndexOf(files, path);
      if index == |files| { return Err(NotFound); }
      var undone := RevertedFile(disk, files[index]);
      if undone.Err? { return Err(undone.error); }
      disk := undone.value;
      files := files[..index] + files[index+1..];
      if save == BodyLost { return Err(StoreFailed); }
      if files == [] {
        body := None;
      } else {
        body := Some(Body(expectedRevision + 1, files));
      }
      return if save == Saved then Ok(expectedRevision + 1) else Err(StoreFailed);
    }
  }

  /** A stored diff is exact when it lists the difference between the start of the run and the disk. */
  predicate ExactDiff(start: Disk, s: Stored) {
    if s.body.None? then s.disk == start
    else s.body.value.files != [] && Lists(s.body.value.files, NetDiff(start, s.disk))
  }

  lemma NoDifferenceMeansStart(start: Disk, now: Disk)
    requires NetDiff(start, now) == map[]
    ensures now == start
  {
    forall p
      ensures At(start, p) == At(now, p)
    {
      NetDiffMembers(start, now, p);
    }
    forall p | p in now ensures p in start && start[p] == now[p] { assert At(start, p) == At(now, p); }
    forall p | p in start ensures p in now { assert At(start, p) == At(now, p); }
  }

  lemma WithoutLists(files: seq<Change>, net: map<Path, Net>, i: nat)
    requires Lists(files, net) && i < |files|
    ensures Lists(Without(files, i), net - {files[i].path})
  {
    var rest, path := Without(files, i), files[i].path;
    var paths, left := Paths(files), Paths(rest);
    assert forall j :: 0 <= j < |rest| ==> left[j] == paths[if j < i then j else j + 1];
    forall j | 0 <= j < |rest|
      ensures rest[j].path in net - {path} && rest[j] == LineOf(rest[j].path, (net - {path})[rest[j].path])
    {
      var k := if j < i then j else j + 1;
      assert rest[j] == files[k];
      LessIrreflexive(path);
      assert if k < i then Less(paths[k], paths[i]) else Less(paths[i], paths[k]);
    }
    forall p | p in net - {path}
      ensures p in left
    {
      var k :| 0 <= k < |paths| && paths[k] == p;
      assert left[if k < i then k else k - 1] == p;
    }
  }

  lemma ListedPath(files: seq<Change>, net: map<Path, Net>, path: Path)
    requires Lists(files, net)
    ensures path in net <==> IndexOf(files, path) < |files|
  {
    if path in net {
      var k :| 0 <= k < |Paths(files)| && Paths(files)[k] == path;
      assert files[k].path == path;
    }
  }

  /** Putting back a path's start content takes exactly that path out of the difference. */
  lemma PutBack(start: Disk, now: Disk, path: Path)
    ensures NetDiff(start, Put(now, path, At(start, path))) == NetDiff(start, now) - {path}
  {
    var next := Put(now, path, At(start, path));
    forall p
      ensures p in NetDiff(start, next) <==> p in NetDiff(start, now) && p != path
      ensures p in NetDiff(start, next) ==> NetDiff(start, next)[p] == NetDiff(start, now)[p]
    {
      NetDiffMembers(start, next, p);
      NetDiffMembers(start, now, p);
      assert At(next, p) == if p == path then At(start, p) else At(now, p);
    }
  }

  /** Undoing one listed file succeeds exactly when the caller names the current revision,
      puts back that file's start content and nothing else, and leaves an exact diff. */
  lemma RevertIsExact(start: Disk, s: Stored, path: Path, expectedRevision: nat)
    requires ExactDiff(start, s)
    ensures var r := Reverted(s, false, path, expectedRevision);
            && (r.Ok? <==> s.body.Some? && s.body.value.revision == expectedRevision && path in NetDiff(start, s.disk))
            && (r.Ok? ==> r.value.disk == Put(s.disk, path, At(start, path)) && ExactDiff(start, r.value))
  {
    if s.body.Some? {
      var files, net := s.body.value.files, NetDiff(start, s.disk);
      var i := IndexOf(files, path);
      NetDiffMembers(start, s.disk, path);
      if i < |files| {
        assert files[i] == LineOf(path, net[path]);
        var disk := Put(s.disk, path, At(start, path));
        assert RevertedFile(s.disk, files[i]) == Ok(disk);
        PutBack(start, s.disk, path);
        WithoutLists(files, net, i);
        if Without(files, i) == [] {
          assert Paths([]) == [];
          assert net - {path} == map[];
          NoDifferenceMeansStart(start, disk);
        }
      }
      ListedPath(files, net, path);
    } else {
      NetDiffMembers(start, s.disk, path);
    }
  }

  /** What remains when the body was not stored: the file holds its start content again, its line is still
      listed, and no further undo of it goes through or changes anything. */
  lemma HalfUndoneStays(start: Disk, s: Stored, path: Path, expectedRevision: nat, again: nat, active: bool)
    requires ExactDiff(start, s) && Reverted(s, false, path, expectedRevision).Ok?
    ensures var half := HalfUndone(s, Reverted(s, false, path, expectedRevision).value);
            && At(half.disk, path) == At(start, path) && NetDiff(start, half.disk) == NetDiff(start, s.disk) - {path}
            && half.body.Some? && path in Paths(half.body.value.files)
            && Reverted(half, active, path, again).Err?
  {
    RevertIsExact(start, s, path, expectedRevision);
    PutBack(start, s.disk, path);
    var files, net := s.body.value.files, NetDiff(start, s.disk);
    var i := IndexOf(files, path);
    assert Paths(files)[i] == path;
    NetDiffMembers(start, s.disk, path);
    assert files[i] == LineOf(path, net[path]);
    var half := HalfUndone(s, Reverted(s, false, path, expectedRevision).value);
    assert At(half.disk, path) == files[i].before != files[i].after;
  }

  function Revision(s: Stored): nat {
    if s.body.Some? then s.body.value.revision else 0
  }

  /** Undo a list of files, each time with the revision last seen. */
  function RevertedAll(s: Stored, order: seq<Path>): Result<Stored, UndoError>
    decreases |order|
  {
    if order == [] then Ok(s)
    else match Reverted(s, false, order[0], Revision(s))
      case Err(e) => Err(e)
      case Ok(next) => RevertedAll(next, order[1..])
  }

  lemma DiffHasBody(start: Disk, s: Stored, path: Path)
    requires ExactDiff(start, s) && path in NetDiff(start, s.disk)
    ensures s.body.Some?
  {
    NetDiffMembers(start, s.disk, path);
    hide Lists, NetDiff;
  }

  /** One undo removes exactly its path from the difference. */
  lemma RevertShrinks(start: Disk, s: Stored, path: Path)
    requires ExactDiff(start, s) && path in NetDiff(start, s.disk)
    ensures var r := Reverted(s, false, path, Revision(s));
            r.Ok? && ExactDiff(start, r.value) && NetDiff(start, r.value.disk) == NetDiff(start, s.disk) - {path}
  {
    DiffHasBody(start, s, path);
    hide ExactDiff, NetDiff, Reverted;
    NetDiffMembers(start, s.disk, path);
    RevertIsExact(start, s, path, Revision(s));
    PutBack(start, s.disk, path);
  }

  lemma EmptyDiffIsStart(start: Disk, s: Stored)
    requires ExactDiff(start, s)
    ensures NetDiff(start, s.disk) == map[] ==> s == Stored(start, None)
  {
    if s.body.Some? {
      assert s.body.value.files[0].path in NetDiff(start, s.disk);
    }
  }

  function Undone(net: map<Path, Net>, order: seq<Path>): map<Path, Net> {
    map p | p in net && p !in order :: net[p]
  }

  lemma {:induction false} UndoneStays(start: Disk, s: Stored, order: seq<Path>)
    requires ExactDiff(start, s) && NoDuplicates(order)
    requires forall p :: p in order ==> p in NetDiff(start, s.disk)
    ensures var r := RevertedAll(s, order);
            r.Ok? && ExactDiff(start, r.value) && NetDiff(start, r.value.disk) == Undone(NetDiff(start, s.disk), order)
    decreases |order|
  {
    hide ExactDiff, NetDiff, Reverted;
    var net := NetDiff(start, s.disk);
    if order == [] {
      assert Undone(net, order) == net;
    } else {
      var path, rest := order[0], order[1..];
      assert path in order;
      RevertShrinks(start, s, path);
      var next := Reverted(s, false, path, Revision(s)).value;
      forall p | p in rest
        ensures p in NetDiff(start, next.disk)
      {
        var k :| 0 <= k < |rest| && rest[k] == p;
        assert order[k+1] == p && order[0] != order[k+1];
        assert p in order;
      }
      UndoneStays(start, next, rest);
      assert order == [path] + rest;
      assert Undone(net - {path}, rest) == Undone(net, order);
    }
  }

  /** Listed files can be undone in any order: every undo succeeds, the remaining diff stays
      exact, and once each listed file is undone the disk is the one the run started from. */
  lemma AnyOrderRestoresStart(start: Disk, s: Stored, order: seq<Path>)
    requires ExactDiff(start, s) && NoDuplicates(order)
    requires forall p :: p in order ==> p in NetDiff(start, s.disk)
    ensures var r := RevertedAll(s, order);
            && r.Ok? && ExactDiff(start, r.value)
            && NetDiff(start, r.value.disk) == Undone(NetDiff(start, s.disk), order)
            && ((forall p :: p in NetDiff(start, s.disk) ==> p in order) ==> r.value == Stored(start, None))
  {
    UndoneStays(start, s, order);
    var r := RevertedAll(s, order).value;
    EmptyDiffIsStart(start, r);
    if forall p :: p in NetDiff(start, s.disk) ==> p in order {
      assert Undone(NetDiff(start, s.disk), order) == map[];
    }
  }

  /** A revision is good for one undo: once it has gone through, no second one with the same number does. */
  lemma RevisionGoodForOne(s: Stored, path: Path, expectedRevision: nat, other: Path)
    requires Reverted(s, false, path, expectedRevision).Ok?
    ensures var next := Reverted(s, false, path, expectedRevision).value;
            && Reverted(next, false, other, expectedRevision) == Err(if next.body.None? then NotFound else Conflict)
            && (next.body.Some? ==> Revision(next) == expectedRevision + 1)
  {}

  /** Somebody else's edit is never overwritten: an undo goes through only while the
      path still holds what the run left there. */
  lemma UndoRespectsLaterEdits(s: Stored, active: bool, path: Path, expectedRevision: nat)
    requires s.body.Some? && forall f :: f in s.body.value.files ==> f.operation == NetOperation(f.before, f.after)
    ensures Reverted(s, active, path, expectedRevision).Ok? ==>
              exists i :: 0 <= i < |s.body.value.files| && s.body.value.files[i].path == path
                          && At(s.disk, path) == s.body.value.files[i].after
  {
    var i := IndexOf(s.body.value.files, path);
    if i < |s.body.value.files| {
      assert s.body.value.files[i] in s.body.value.files;
    }
  }
}
