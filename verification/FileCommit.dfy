/** Writing a batch of file changes and saying how far it got
    (internal/machine/local/agent_files.go), under I/O failures. */
module FileCommit {
  import opened Basics
  import opened RunDiff

  /** `content` is none for a removal. */
  datatype FileChange = FileChange(path: Path, expected: Hash, content: Content)

  datatype CommitError = Stopped | Refused | IOError | ProgressFailed

  datatype FileCommit = FileCommit(completed: nat, exact: bool)

  /** The disk after the first `n` changes have gone through in full. */
  function Applied(disk: Disk, changes: seq<FileChange>, n: nat): Disk
    requires n <= |changes|
  {
    if n == 0 then disk else Put(Applied(disk, changes, n - 1), changes[n-1].path, changes[n-1].content)
  }

  lemma PutHere(disk: Disk, path: Path, content: Content, other: Path)
    ensures At(Put(disk, path, content), other) == if other == path then content else At(disk, other)
  {}

  /** Each file is as the last of the changes to it has left it. */
  lemma {:induction false} LastChangeStands(disk: Disk, changes: seq<FileChange>, n: nat, k: nat)
    requires k < n <= |changes| && forall l :: k < l < n ==> changes[l].path != changes[k].path
    ensures At(Applied(disk, changes, n), changes[k].path) == changes[k].content
  {
    hide At, Put;
    PutHere(Applied(disk, changes, n - 1), changes[n-1].path, changes[n-1].content, changes[k].path);
    if k < n - 1 { LastChangeStands(disk, changes, n - 1, k); }
  }

  /** And a file without a change is as it was. */
  lemma {:induction false} OthersStand(disk: Disk, changes: seq<FileChange>, n: nat, path: Path)
    requires n <= |changes| && forall k :: 0 <= k < n ==> changes[k].path != path
    ensures At(Applied(disk, changes, n), path) == At(disk, path)
  {
    hide At, Put;
    if n > 0 {
      PutHere(Applied(disk, changes, n - 1), changes[n-1].path, changes[n-1].content, path);
      OthersStand(disk, changes, n - 1, path);
    }
  }

  /** Whether every one of the first `n` changes met the content it expects. */
  predicate Expected(disk: Disk, changes: seq<FileChange>, n: nat)
    requires n <= |changes|
  {
    forall k :: 0 <= k < n ==> ContentHash(At(Applied(disk, changes, k), changes[k].path)) == changes[k].expected
  }

  /** The disk is not as the change expects it, or it is to remove a file that is to be absent. */
  predicate Unmet(c: FileChange, disk: Disk) {
    ContentHash(At(disk, c.path)) != c.expected || (c.expected == AbsentHash && c.content.None?)
  }

  /** Why a batch has ended early: somebody has stopped it or its progress could not be shown, at that very
      change; or the next change does not fit the disk that the changes before it have left; or the disk failed. */
  ghost predicate EndedFor(error: CommitError, start: Disk, changes: seq<FileChange>, done: nat, stops: seq<bool>, shows: seq<bool>,
                           ioFailed: bool)
    requires done <= |changes| == |stops| == |shows|
  {
    match error
    case Stopped => done < |changes| && stops[done]
    case ProgressFailed => 0 < done && !shows[done-1]
    case Refused => done < |changes| && Unmet(changes[done], Applied(start, changes, done))
    case IOError => done < |changes| && (ioFailed || Unmet(changes[done], Applied(start, changes, done)))
  }

  /** Nothing but the file at `path` differs. */
  predicate SameElsewhere(a: Disk, b: Disk, path: Path) {
    a - {path} == b - {path}
  }

  /** All but the path of the next change is as the first `n` changes have left it. */
  predicate InDoubtOnlyAt(start: Disk, changes: seq<FileChange>, n: nat, now: Disk)
    requires n <= |changes|
  {
    n < |changes| && SameElsewhere(now, Applied(start, changes, n), changes[n].path)
  }

  lemma OneMoreApplied(start: Disk, changes: seq<FileChange>, n: nat, now: Disk)
    requires n < |changes| && Expected(start, changes, n)
    requires ContentHash(At(Applied(start, changes, n), changes[n].path)) == changes[n].expected
    requires now == Put(Applied(start, changes, n), changes[n].path, changes[n].content)
    ensures Expected(start, changes, n + 1) && now == Applied(start, changes, n + 1)
  {}

  class Files {
    var disk: Disk
    ghost var ioFailed: bool

    constructor (disk: Disk)
      ensures this.disk == disk && !ioFailed
    {
      this.disk, ioFailed := disk, false;
    }

    /** `WriteFileIfUnchanged` and `RemoveFileIfUnchanged`. Only a change whose expectation is met is begun;
        one that fails then may leave anything at its path: a new file may be written in part and its
        removal fail as well, and a replacement may be complete although syncing it was not. */
    method Change(c: FileChange) returns (error: Option<CommitError>)
      modifies this
      ensures SameElsewhere(disk, old(disk), c.path)
      ensures error.None? ==> ContentHash(At(old(disk), c.path)) == c.expected && disk == Put(old(disk), c.path, c.content)
      ensures error.Some? ==> error.value == IOError || (error.value == Refused && disk == old(disk))
      ensures error.Some? && ContentHash(At(old(disk), c.path)) != c.expected ==> disk == old(disk)
      ensures error.Some? ==> ioFailed || Unmet(c, old(disk))
      ensures error == Some(Refused) ==> Unmet(c, old(disk))
      ensures old(ioFailed) ==> ioFailed
    {
      var ioFails: bool := *;
      ioFailed := ioFailed || ioFails;
      var partial: Content := *;
      if c.expected != AbsentHash && (c.path !in disk || ioFails) {
        return Some(IOError);
      }
      if ContentHash(At(disk, c.path)) != c.expected || (c.expected == AbsentHash && c.content.None?) {
        return if c.path in disk && !ioFails then Some(Refused) else Some(IOError);
      }
      if ioFails {
        disk := Put(disk, c.path, partial);
        return Some(IOError);
      }
      disk := Put(disk, c.path, c.content);
      return None;
    }

    /** `ReadFileVersion` after a failure; it may fail in turn, and does so for a missing file.  Its error
        wraps the system's, which `os.IsNotExist` does not look through: the caller cannot tell. */
    method ReadVersion(path: Path) returns (hash: Option<Hash>)
      modifies this`ioFailed
      ensures old(ioFailed) ==> ioFailed
      ensures hash.None? ==> ioFailed || path !in disk
      ensures hash.Some? ==> path in disk && hash.value == ContentHash(At(disk, path)) && hash.value != AbsentHash
    {
      var fails: bool := *;
      ioFailed := ioFailed || fails;
      hash := if fails || path !in disk then None else Some(ContentHash(At(disk, path)));
    }
  }

  lemma SameContentSameDisk(a: Disk, b: Disk, path: Path)
    requires SameElsewhere(a, b, path) && ContentHash(At(a, path)) == ContentHash(At(b, path))
    ensures a == b
  {
    assert forall p :: p in a <==> p in a - {path} || (p == path && p in a);
    forall p | p in a
      ensures p in b && a[p] == b[p]
    {
      if p != path { assert p in a - {path}; }
    }
    forall p | p in b
      ensures p in a
    {
      if p != path { assert p in b - {path}; }
    }
  }

  /** `commitFileChanges`. An exact answer names what is on the disk: the first `completed` changes and
      nothing of the others. An inexact one leaves only the next change's own path in doubt. A creation
      that fails while writing is never called exact, not even when it has left no file. `stops` and `shows`
      say where somebody stops the batch and where its progress can be shown. */
  method CommitFileChanges(files: Files, changes: seq<FileChange>, stops: seq<bool>, shows: seq<bool>)
    returns (result: FileCommit, error: Option<CommitError>)
    requires |changes| == |stops| == |shows|
    modifies files
    ensures result.completed <= |changes|
    ensures Expected(old(files.disk), changes, result.completed)
    ensures result.exact ==> files.disk == Applied(old(files.disk), changes, result.completed)
    ensures !result.exact ==> error == Some(IOError) && InDoubtOnlyAt(old(files.disk), changes, result.completed, files.disk)
    ensures result.completed < |changes| && error == Some(IOError) && changes[result.completed].expected == AbsentHash ==> !result.exact
    ensures error.None? ==> result == FileCommit(|changes|, true)
    ensures error.Some? ==> EndedFor(error.value, old(files.disk), changes, result.completed, stops, shows, files.ioFailed)
  {
    hide SameElsewhere, At, Put, ContentHash, Unmet;
    result, error := FileCommit(0, true), None;
    for k := 0 to |changes|
      invariant result == FileCommit(k, true) && error.None? && (old(files.ioFailed) ==> files.ioFailed)
      invariant Expected(old(files.disk), changes, k) && files.disk == Applied(old(files.disk), changes, k)
    {
      if stops[k] { return result, Some(Stopped); }
      ghost var before := files.disk;
      error := files.Change(changes[k]);
      if error.Some? {
        var hash := files.ReadVersion(changes[k].path);
        var exact := error.value == Refused || hash == Some(changes[k].expected);
        if exact && error.value != Refused && ContentHash(At(before, changes[k].path)) == changes[k].expected {
          SameContentSameDisk(files.disk, before, changes[k].path);
        }
        return FileCommit(k, exact), error;
      }
      OneMoreApplied(old(files.disk), changes, k, files.disk);
      hide Applied, Expected;
      result := FileCommit(k + 1, true);
      if !shows[k] { return result, Some(ProgressFailed); }
    }
  }
}
