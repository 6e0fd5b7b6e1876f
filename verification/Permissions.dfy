/** The grant algebra of internal/permissions/rules.go.

    A clean absolute path is the sequence of its components, so that the test
    for "inside a directory" is the prefix relation.  Anything that
    `filepath.Clean` would change, or that is not absolute, is `Malformed`. */
module Permissions {
  import opened Basics

  datatype Path = Abs(parts: seq<string>) | Malformed(text: string)

  datatype Policy = Policy(unrestricted: bool, roots: seq<Path>, network: bool)

  datatype ExtraPermissions = ExtraPermissions(roots: seq<Path>, network: bool)

  datatype Requirement = Allow | Ask  // the source's Deny is the error result

  datatype Refusal = BadPath | Denied

  const protectedNames: seq<string> := [".git", ".agents", ".harness"]

  predicate Contains(root: Path, path: Path) {
    root.Abs? && path.Abs? && root.parts <= path.parts
  }

  function Join(root: Path, name: string): Path {
    if root.Abs? then Abs(root.parts + [name]) else root
  }

  predicate AllClean(paths: seq<Path>) {
    forall p :: p in paths ==> p.Abs?
  }

  /** A grant inside a protected directory that reaches `path`. */
  predicate Explicit(roots: seq<Path>, protected: Path, path: Path) {
    exists g :: g in roots && Contains(protected, g) && Contains(g, path)
  }

  predicate Covered(roots: seq<Path>, path: Path) {
    exists r :: r in roots && Contains(r, path)
  }

  /** Every protected child of one root that contains `path` is unlocked. */
  predicate Unlocked(roots: seq<Path>, root: Path, path: Path) {
    forall n :: n in protectedNames && Contains(Join(root, n), path) ==> Explicit(roots, Join(root, n), path)
  }

  /** The meaning of `Policy.canWrite`. */
  predicate CanWrite(roots: seq<Path>, path: Path) {
    && Covered(roots, path)
    && forall r :: r in roots ==> Unlocked(roots, r, path)
  }

  // ---------- the loops of the source ----------

  method FindExplicit(roots: seq<Path>, protected: Path, path: Path) returns (explicit: bool)
    ensures explicit == Explicit(roots, protected, path)
  {
    explicit := false;
    for i := 0 to |roots|
      invariant !explicit
      invariant forall j :: 0 <= j < i ==> !(Contains(protected, roots[j]) && Contains(roots[j], path))
    {
      if Contains(protected, roots[i]) && Contains(roots[i], path) {
        return true;
      }
    }
  }

  method CheckWrite(roots: seq<Path>, path: Path) returns (allowed: bool)
    ensures allowed == CanWrite(roots, path)
  {
    allowed := false;
    for i := 0 to |roots|
      invariant allowed == exists j :: 0 <= j < i && Contains(roots[j], path)
      invariant forall j :: 0 <= j < i ==> Unlocked(roots, roots[j], path)
    {
      if Contains(roots[i], path) {
        allowed := true;
      }
      for k := 0 to |protectedNames|
        invariant forall m :: 0 <= m < k && Contains(Join(roots[i], protectedNames[m]), path)
                              ==> Explicit(roots, Join(roots[i], protectedNames[m]), path)
      {
        var protected := Join(roots[i], protectedNames[k]);
        if !Contains(protected, path) {
          continue;
        }
        var explicit := FindExplicit(roots, protected, path);
        if !explicit {
          assert roots[i] in roots && protectedNames[k] in protectedNames;
          assert !Unlocked(roots, roots[i], path);
          return false;
        }
      }
    }
  }

  // ---------- requests ----------

  /** What `Evaluate` must answer. */
  function Evaluated(policy: Policy, requested: ExtraPermissions): Result<Requirement, Refusal> {
    if !AllClean(policy.roots) || !AllClean(requested.roots) then Err(BadPath)
    else if policy.unrestricted then Ok(Allow)
    else if requested.network && !policy.network then Ok(Ask)
    else if forall r :: r in requested.roots ==> CanWrite(policy.roots, r) then Ok(Allow)
    else Ok(Ask)
  }

  method ValidatePaths(paths: seq<Path>) returns (ok: bool)
    ensures ok == AllClean(paths)
  {
    for i := 0 to |paths|
      invariant forall j :: 0 <= j < i ==> paths[j].Abs?
    {
      if !paths[i].Abs? {
        return false;
      }
    }
    return true;
  }

  method Evaluate(policy: Policy, requested: ExtraPermissions) returns (r: Result<Requirement, Refusal>)
    ensures r == Evaluated(policy, requested)
  {
    var ok := ValidatePaths(policy.roots);
    if !ok { return Err(BadPath); }
    ok := ValidatePaths(requested.roots);
    if !ok { return Err(BadPath); }
    if policy.unrestricted { return Ok(Allow); }
    if requested.network && !policy.network { return Ok(Ask); }
    for i := 0 to |requested.roots|
      invariant forall j :: 0 <= j < i ==> CanWrite(policy.roots, requested.roots[j])
    {
      var allowed := CheckWrite(policy.roots, requested.roots[i]);
      if !allowed { return Ok(Ask); }
    }
    return Ok(Allow);
  }

  /** One step of a grant: a root is appended only when it is not writable yet. */
  function GrantOne(roots: seq<Path>, root: Path): seq<Path> {
    if CanWrite(roots, root) then roots else roots + [root]
  }

  function Granted(roots: seq<Path>, requested: seq<Path>): seq<Path> {
    if requested == [] then roots
    else GrantOne(Granted(roots, requested[..|requested|-1]), requested[|requested|-1])
  }

  /** What `ApplyDecision` must deliver. */
  function Decided(current: Policy, requested: ExtraPermissions, approved: bool): Result<Policy, Refusal> {
    if !approved then Err(Denied)
    else if Evaluated(current, requested).Err? then Err(BadPath)
    else if current.unrestricted then Ok(current)
    else Ok(Policy(false, Granted(current.roots, requested.roots), current.network || requested.network))
  }

  method ApplyDecision(current: Policy, requested: ExtraPermissions, approved: bool) returns (r: Result<Policy, Refusal>)
    ensures r == Decided(current, requested, approved)
  {
    if !approved { return Err(Denied); }
    var check := Evaluate(current, requested);
    if check.Err? { return Err(check.error); }
    if current.unrestricted { return Ok(current); }
    var roots := current.roots;
    for i := 0 to |requested.roots|
      invariant roots == Granted(current.roots, requested.roots[..i])
    {
      var allowed := CheckWrite(roots, requested.roots[i]);
      assert requested.roots[..i+1][..i] == requested.roots[..i];
      if !allowed {
        roots := roots + [requested.roots[i]];
      }
    }
    assert requested.roots[..|requested.roots|] == requested.roots;
    return Ok(Policy(false, roots, current.network || requested.network));
  }

  // ---------- what a grant means ----------

  lemma ContainsTransitive(a: Path, b: Path, c: Path)
    requires Contains(a, b) && Contains(b, c)
    ensures Contains(a, c)
  {}

  /** Two directories containing the same path are nested. */
  lemma ContainersNest(a: Path, b: Path, path: Path)
    requires Contains(a, path) && Contains(b, path)
    ensures |a.parts| <= |b.parts| ==> Contains(a, b)
    ensures |b.parts| <= |a.parts| ==> Contains(b, a)
  {}

  /** The deepest root that contains a covered path. */
  lemma DeepestRoot(roots: seq<Path>, path: Path) returns (g: Path)
    requires Covered(roots, path)
    ensures g in roots && Contains(g, path)
    ensures forall r :: r in roots && Contains(r, path) ==> |r.parts| <= |g.parts|
  {
    g :| g in roots && Contains(g, path);
    for i := 0 to |roots|
      invariant g in roots && Contains(g, path)
      invariant forall j :: 0 <= j < i && Contains(roots[j], path) ==> |roots[j].parts| <= |g.parts|
    {
      if Contains(roots[i], path) && |roots[i].parts| > |g.parts| {
        g := roots[i];
      }
    }
  }

  /** The directory rule in one witness: a path is writable exactly when some
      root containing it lies at or below every protected directory containing it. */
  predicate DeepestGrantWins(roots: seq<Path>, path: Path) {
    exists g :: g in roots && Contains(g, path) && GrantBeatsProtection(roots, g, path)
  }

  predicate GrantBeatsProtection(roots: seq<Path>, g: Path, path: Path) {
    forall r, n :: r in roots && n in protectedNames && Contains(Join(r, n), path) ==> Contains(Join(r, n), g)
  }

  lemma CanWriteIsDeepestGrant(roots: seq<Path>, path: Path)
    ensures CanWrite(roots, path) <==> DeepestGrantWins(roots, path)
  {
    if CanWrite(roots, path) {
      var g := DeepestRoot(roots, path);
      forall r, n | r in roots && n in protectedNames && Contains(Join(r, n), path)
        ensures Contains(Join(r, n), g)
      {
        assert Unlocked(roots, r, path);
        var e :| e in roots && Contains(Join(r, n), e) && Contains(e, path);
        ContainersNest(e, g, path);
        ContainsTransitive(Join(r, n), e, g);
      }
      assert GrantBeatsProtection(roots, g, path);
    }
    if DeepestGrantWins(roots, path) {
      var g :| g in roots && Contains(g, path) && GrantBeatsProtection(roots, g, path);
      forall r | r in roots
        ensures Unlocked(roots, r, path)
      {}
    }
  }

  /** A root that is not writable yet can be added without any path losing access,
      although the new root brings protected children of its own. */
  lemma GrantKeepsAccess(roots: seq<Path>, root: Path, path: Path)
    requires !CanWrite(roots, root) && CanWrite(roots, path)
    ensures CanWrite(roots + [root], path)
  {
    var all := roots + [root];
    CanWriteIsDeepestGrant(roots, path);
    var g :| g in roots && Contains(g, path) && GrantBeatsProtection(roots, g, path);
    if forall n :: n in protectedNames && Contains(Join(root, n), path) ==> Contains(Join(root, n), g) {
      assert GrantBeatsProtection(all, g, path);
    } else {
      // `g` lies above `root`; whatever locks `root` also locks `path`, so `g` must lie below it.
      var n :| n in protectedNames && Contains(Join(root, n), path) && !Contains(Join(root, n), g);
      ContainersNest(Join(root, n), g, path);
      assert Contains(root, path) by { assert root.parts <= Join(root, n).parts; }
      ContainersNest(g, root, path);
      assert Contains(g, root);
      forall r, m | r in roots && m in protectedNames && Contains(Join(r, m), root)
        ensures Contains(Join(r, m), g)
      {
        ContainsTransitive(Join(r, m), root, path);
      }
      assert GrantBeatsProtection(roots, g, root);
      CanWriteIsDeepestGrant(roots, root);
      assert false;
    }
    CanWriteIsDeepestGrant(all, path);
  }

  lemma GrantGivesRoot(roots: seq<Path>, root: Path)
    requires root.Abs?
    ensures CanWrite(GrantOne(roots, root), root)
  {
    if !CanWrite(roots, root) {
      var all := roots + [root];
      assert root in all && Contains(root, root);
      assert GrantBeatsProtection(all, root, root);
      CanWriteIsDeepestGrant(all, root);
    }
  }

  /** A path that only a new root makes writable lies inside that root. */
  lemma GrantAddsNothingElse(roots: seq<Path>, root: Path, path: Path)
    requires !CanWrite(roots, path) && CanWrite(roots + [root], path)
    ensures Contains(root, path)
  {
    var all := roots + [root];
    CanWriteIsDeepestGrant(all, path);
    var g :| g in all && Contains(g, path) && GrantBeatsProtection(all, g, path);
    if g != root {
      assert forall r :: r in roots ==> r in all;
      assert g in roots;
      assert GrantBeatsProtection(roots, g, path);
      CanWriteIsDeepestGrant(roots, path);
    }
  }

  lemma {:induction false} GrantedKeepsAccess(roots: seq<Path>, requested: seq<Path>, path: Path)
    requires CanWrite(roots, path)
    ensures CanWrite(Granted(roots, requested), path)
  {
    if requested != [] {
      var front, last := requested[..|requested|-1], requested[|requested|-1];
      GrantedKeepsAccess(roots, front, path);
      if !CanWrite(Granted(roots, front), last) {
        GrantKeepsAccess(Granted(roots, front), last, path);
      }
    }
  }

  lemma {:induction false} GrantedGivesRoots(roots: seq<Path>, requested: seq<Path>, root: Path)
    requires AllClean(requested) && root in requested
    ensures CanWrite(Granted(roots, requested), root)
  {
    var front, last := requested[..|requested|-1], requested[|requested|-1];
    if root == last {
      assert last.Abs?;
      GrantGivesRoot(Granted(roots, front), last);
    } else {
      assert root in front;
      assert AllClean(front) by { forall p | p in front ensures p.Abs? { assert p in requested; } }
      GrantedGivesRoots(roots, front, root);
      if !CanWrite(Granted(roots, front), last) {
        GrantKeepsAccess(Granted(roots, front), last, root);
      }
    }
  }

  lemma {:induction false} GrantedAddsOnlyRequested(roots: seq<Path>, requested: seq<Path>, path: Path)
    requires !CanWrite(roots, path) && CanWrite(Granted(roots, requested), path)
    ensures Covered(requested, path)
  {
    var front, last := requested[..|requested|-1], requested[|requested|-1];
    if CanWrite(Granted(roots, front), path) {
      GrantedAddsOnlyRequested(roots, front, path);
      var r :| r in front && Contains(r, path);
      assert r in requested;
    } else {
      GrantAddsNothingElse(Granted(roots, front), last, path);
      assert last in requested;
    }
  }

  lemma {:induction false} GrantedClean(roots: seq<Path>, requested: seq<Path>)
    requires AllClean(roots) && AllClean(requested)
    ensures AllClean(Granted(roots, requested))
  {
    if requested != [] {
      var front := requested[..|requested|-1];
      assert AllClean(front) by { forall p | p in front ensures p.Abs? { assert p in requested; } }
      GrantedClean(roots, front);
      assert requested[|requested|-1] in requested;
    }
  }

  /** Only requested roots are added, behind those that were there. */
  lemma {:induction false} GrantedRoots(roots: seq<Path>, requested: seq<Path>)
    ensures roots <= Granted(roots, requested)
    ensures forall r :: r in Granted(roots, requested) ==> r in roots || r in requested
  {
    if requested != [] { GrantedRoots(roots, requested[..|requested|-1]); }
  }

  /** What `Evaluate` answers, said without its order of checks: malformed paths are an error; a request is allowed
      exactly when nothing restricts it, or the network is on if asked for and every requested path lies under a grant
      that no protected directory takes back; otherwise somebody has to be asked. */
  lemma AllowedExactly(policy: Policy, requested: ExtraPermissions)
    ensures var r := Evaluated(policy, requested);
            && (r.Err? <==> !AllClean(policy.roots) || !AllClean(requested.roots))
            && (r.Ok? ==>
                  (r == Ok(Allow) <==>
                    policy.unrestricted
                    || ((requested.network ==> policy.network)
                        && forall p :: p in requested.roots ==> DeepestGrantWins(policy.roots, p))))
  {
    forall p
      ensures CanWrite(policy.roots, p) <==> DeepestGrantWins(policy.roots, p)
    {
      CanWriteIsDeepestGrant(policy.roots, p);
    }
    hide CanWrite, DeepestGrantWins;
  }

  /** The whole promise of an approval: the request itself now evaluates to Allow,
      nothing that was writable is lost, and everything gained lies under a requested root.  The network is on
      afterwards exactly if it was before or was asked for, no restriction is lifted, and an unrestricted policy stays
      as it is. */
  lemma ApprovalIsExact(current: Policy, requested: ExtraPermissions)
    requires Evaluated(current, requested).Ok?
    ensures var r := Decided(current, requested, true);
            && r.Ok?
            && Evaluated(r.value, requested) == Ok(Allow)
            && (forall p :: CanWrite(current.roots, p) ==> CanWrite(r.value.roots, p))
            && (forall p :: CanWrite(r.value.roots, p) && !CanWrite(current.roots, p) ==> Covered(requested.roots, p))
            && r.value.unrestricted == current.unrestricted && (current.unrestricted ==> r.value == current)
            && (!current.unrestricted ==> (r.value.network <==> current.network || requested.network))
            && current.roots <= r.value.roots
            && (forall p :: p in r.value.roots ==> p in current.roots || p in requested.roots)
  {
    var r := Decided(current, requested, true);
    GrantedRoots(current.roots, requested.roots);
    if !current.unrestricted {
      GrantedClean(current.roots, requested.roots);
      forall root | root in requested.roots
        ensures CanWrite(r.value.roots, root)
      {
        GrantedGivesRoots(current.roots, requested.roots, root);
      }
      forall p | CanWrite(current.roots, p)
        ensures CanWrite(r.value.roots, p)
      {
        GrantedKeepsAccess(current.roots, requested.roots, p);
      }
      forall p | CanWrite(r.value.roots, p) && !CanWrite(current.roots, p)
        ensures Covered(requested.roots, p)
      {
        GrantedAddsOnlyRequested(current.roots, requested.roots, p);
      }
    }
  }

  /** What was not asked for is decided after an approval as it was before. */
  lemma OthersUnaffected(current: Policy, requested: ExtraPermissions, other: ExtraPermissions)
    requires Evaluated(current, requested).Ok?
    requires other.network && requested.network ==> current.network
    requires forall p :: p in other.roots ==> !Covered(requested.roots, p)
    ensures Evaluated(Decided(current, requested, true).value, other) == Evaluated(current, other)
  {
    ApprovalIsExact(current, requested);
    hide CanWrite, Covered, Granted;
  }

  /** Asking again for what has been approved changes nothing. */
  lemma ApprovedTwice(current: Policy, requested: ExtraPermissions)
    requires Evaluated(current, requested).Ok?
    ensures var r := Decided(current, requested, true); Decided(r.value, requested, true) == r
  {
    ApprovalIsExact(current, requested);
    var r := Decided(current, requested, true).value;
    if !current.unrestricted { NothingToGrant(r.roots, requested.roots); }
  }

  lemma {:induction false} NothingToGrant(roots: seq<Path>, requested: seq<Path>)
    requires forall p :: p in requested ==> CanWrite(roots, p)
    ensures Granted(roots, requested) == roots
  {
    if requested != [] { NothingToGrant(roots, requested[..|requested|-1]); }
  }

  /** A denied or malformed request never yields a policy. */
  lemma DenialIsFinal(current: Policy, requested: ExtraPermissions, approved: bool)
    ensures Decided(current, requested, approved).Ok?
            <==> approved && AllClean(current.roots) && AllClean(requested.roots)
  {}

  // ---------- why the guard in ApplyDecision is needed ----------

  predicate ExposedChild(roots: seq<Path>, root: Path, name: string) {
    name in protectedNames && CanWrite(roots, Join(root, name)) && Join(root, name) !in roots
  }

  predicate Lost(roots: seq<Path>, root: Path, path: Path) {
    CanWrite(roots, path) && !CanWrite(roots + [root], path)
  }

  /** A protected child of a root is writable only as a root of its own. */
  lemma ProtectedChildNeedsGrant(roots: seq<Path>, root: Path, name: string)
    requires root.Abs? && root in roots && name in {".git", ".agents", ".harness"}
    ensures CanWrite(roots, Join(root, name)) ==> Join(root, name) in roots
  {
    var q := Join(root, name);
    assert protectedNames[0] == ".git" && protectedNames[1] == ".agents" && protectedNames[2] == ".harness";
    if CanWrite(roots, q) {
      assert Unlocked(roots, root, q);
      var e :| e in roots && Contains(q, e) && Contains(e, q);
      assert e == q;
    }
  }

  /** A root of its own below `g` keeps what `g` granted, whatever `root` protects. */
  lemma GrantedChildStays(roots: seq<Path>, root: Path, name: string, g: Path, path: Path)
    requires root.Abs? && name in protectedNames && Contains(Join(root, name), path)
    requires GrantBeatsProtection(roots, g, path) && Contains(g, Join(root, name))
    ensures Join(root, name) in roots ==> CanWrite(roots + [root], path)
  {
    var all, q := roots + [root], Join(root, name);
    if q in roots {
      forall r, m | r in all && m in protectedNames && Contains(Join(r, m), path)
        ensures Contains(Join(r, m), q)
      {
        if r == root {
          ContainersNest(Join(r, m), q, path);
        } else {
          ContainsTransitive(Join(r, m), g, q);
        }
      }
      assert q in all && GrantBeatsProtection(all, q, path);
      CanWriteIsDeepestGrant(all, path);
    }
  }

  lemma ExposedChildIsLost(roots: seq<Path>, root: Path, name: string)
    requires root.Abs? && ExposedChild(roots, root, name)
    ensures Lost(roots, root, Join(root, name))
  {
    assert name in {".git", ".agents", ".harness"};
    ProtectedChildNeedsGrant(roots + [root], root, name);
    assert |Join(root, name).parts| != |root.parts|;
  }

  lemma LostPathHasExposedChild(roots: seq<Path>, root: Path, path: Path) returns (name: string)
    requires root.Abs? && Lost(roots, root, path)
    ensures ExposedChild(roots, root, name)
  {
    var all := roots + [root];
    CanWriteIsDeepestGrant(roots, path);
    CanWriteIsDeepestGrant(all, path);
    var g :| g in roots && Contains(g, path) && GrantBeatsProtection(roots, g, path);
    assert g in all;
    name :| name in protectedNames && Contains(Join(root, name), path) && !Contains(Join(root, name), g);
    var q := Join(root, name);
    ContainersNest(q, g, path);
    assert Contains(g, q);
    forall r, m | r in roots && m in protectedNames && Contains(Join(r, m), q)
      ensures Contains(Join(r, m), g)
    {
      ContainsTransitive(Join(r, m), q, path);
    }
    assert GrantBeatsProtection(roots, g, q);
    CanWriteIsDeepestGrant(roots, q);
    GrantedChildStays(roots, root, name, g, path);
  }

  /** Appending a root without the guard takes access away exactly when one of the
      root's protected children is writable at that moment without being a root itself. */
  lemma UnguardedGrantLosesAccess(roots: seq<Path>, root: Path)
    requires root.Abs?
    ensures (exists p :: Lost(roots, root, p)) <==> (exists n :: ExposedChild(roots, root, n))
  {
    if n :| ExposedChild(roots, root, n) {
      ExposedChildIsLost(roots, root, n);
    }
    if p :| Lost(roots, root, p) {
      var n := LostPathHasExposedChild(roots, root, p);
    }
  }

  /** A concrete loss: `/a` makes `/a/b/.git` writable, and adding the root `/a/b`
      on top would protect it. */
  lemma UnguardedGrantExample()
    ensures var a, ab, git := Abs(["a"]), Abs(["a", "b"]), Abs(["a", "b", ".git"]);
            CanWrite([a], ab) && Lost([a], ab, git)
  {
    var a, ab, git := Abs(["a"]), Abs(["a", "b"]), Abs(["a", "b", ".git"]);
    assert a in [a];
    forall n | n in protectedNames
      ensures !Contains(Join(a, n), ab) && !Contains(Join(a, n), git)
    {
      assert Join(a, n).parts[1] == n;
      assert ab.parts[1] == "b" && git.parts[1] == "b";
      assert |n| > 1;
    }
    assert [a] + [ab] == [a, ab];
    assert protectedNames[0] == ".git" && Join(ab, ".git") == git;
    assert ExposedChild([a], ab, ".git");
    ExposedChildIsLost([a], ab, ".git");
  }
}
