/** The line counts of internal/runner/diff_tracker.go: a two-row dynamic program
    for the longest common subsequence of two files' lines. */
module LineStats {
  import opened Basics

  // ---------- lines of a file ----------

  function ContentLines(content: Option<string>): seq<string> {
    if content.None? || content.value == "" then []
    else
      var lines := Split(content.value);
      if lines[|lines|-1] == "" then lines[..|lines|-1] else lines
  }

  // ---------- common subsequences ----------

  /** Positions of equal lines in the first `i` lines of `a` and the first `j` of `b`,
      strictly increasing on both sides: a common subsequence of the two prefixes. */
  predicate Matching(m: seq<(nat, nat)>, a: seq<string>, b: seq<string>, i: nat, j: nat)
    requires i <= |a| && j <= |b|
  {
    && (forall k :: 0 <= k < |m| ==> m[k].0 < i && m[k].1 < j && a[m[k].0] == b[m[k].1])
    && (forall k, l :: 0 <= k < l < |m| ==> m[k].0 < m[l].0 && m[k].1 < m[l].1)
  }

  /** `n` is the length of a longest common subsequence of `a` and `b`. */
  ghost predicate IsLongestCommon(n: nat, a: seq<string>, b: seq<string>) {
    && (exists m :: Matching(m, a, b, |a|, |b|) && |m| == n)
    && (forall m :: Matching(m, a, b, |a|, |b|) ==> |m| <= n)
  }

  /** The recurrence the table follows. */
  function Common(a: seq<string>, b: seq<string>, i: nat, j: nat): nat
    requires i <= |a| && j <= |b|
    decreases i + j
  {
    if i == 0 || j == 0 then 0
    else if a[i-1] == b[j-1] then Common(a, b, i-1, j-1) + 1
    else if Common(a, b, i-1, j) >= Common(a, b, i, j-1) then Common(a, b, i-1, j)
    else Common(a, b, i, j-1)
  }

  lemma {:induction false} CommonReached(a: seq<string>, b: seq<string>, i: nat, j: nat) returns (m: seq<(nat, nat)>)
    requires i <= |a| && j <= |b|
    ensures Matching(m, a, b, i, j) && |m| == Common(a, b, i, j)
    decreases i + j
  {
    if i == 0 || j == 0 {
      m := [];
    } else if a[i-1] == b[j-1] {
      var front := CommonReached(a, b, i-1, j-1);
      m := front + [(i-1, j-1)];
    } else if Common(a, b, i-1, j) >= Common(a, b, i, j-1) {
      m := CommonReached(a, b, i-1, j);
    } else {
      m := CommonReached(a, b, i, j-1);
    }
  }

  lemma {:induction false} CommonBounds(m: seq<(nat, nat)>, a: seq<string>, b: seq<string>, i: nat, j: nat)
    requires i <= |a| && j <= |b| && Matching(m, a, b, i, j)
    ensures |m| <= Common(a, b, i, j)
    decreases i + j
  {
    if m != [] {
      var front, last := m[..|m|-1], m[|m|-1];
      if a[i-1] == b[j-1] {
        assert forall k :: 0 <= k < |front| ==> front[k] == m[k] && m[k].0 < last.0 && m[k].1 < last.1;
        CommonBounds(front, a, b, i-1, j-1);
      } else if last.0 < i-1 {
        assert forall k :: 0 <= k < |m|-1 ==> m[k].0 < last.0;
        CommonBounds(m, a, b, i-1, j);
      } else {
        assert forall k :: 0 <= k < |m|-1 ==> m[k].1 < last.1;
        CommonBounds(m, a, b, i, j-1);
      }
    }
  }

  lemma CommonIsLongest(a: seq<string>, b: seq<string>)
    ensures IsLongestCommon(Common(a, b, |a|, |b|), a, b)
    ensures Common(a, b, |a|, |b|) <= |a| && Common(a, b, |a|, |b|) <= |b|
  {
    var m := CommonReached(a, b, |a|, |b|);
    forall m | Matching(m, a, b, |a|, |b|)
      ensures |m| <= Common(a, b, |a|, |b|)
    {
      CommonBounds(m, a, b, |a|, |b|);
    }
    MatchingFits(m, a, b, |a|, |b|);
  }

  lemma {:induction false} MatchingFits(m: seq<(nat, nat)>, a: seq<string>, b: seq<string>, i: nat, j: nat)
    requires i <= |a| && j <= |b| && Matching(m, a, b, i, j)
    ensures |m| <= i && |m| <= j
    decreases |m|
  {
    if m != [] {
      var front, last := m[..|m|-1], m[|m|-1];
      MatchingFits(front, a, b, last.0, last.1);
    }
  }

  // ---------- the two-row loop ----------

  /** The matrix guard of the source. */
  predicate Fits(oldLines: seq<string>, newLines: seq<string>) {
    oldLines == [] || |newLines| <= 4_000_000 / |oldLines|
  }

  /** One row of the table.  `late` answers the clock at each step count. */
  lemma CommonStep(oldLines: seq<string>, newLines: seq<string>, i: nat, j: nat)
    requires i < |oldLines| && j < |newLines|
    ensures Common(oldLines, newLines, i + 1, j + 1)
            == if oldLines[i] == newLines[j] then Common(oldLines, newLines, i, j) + 1
               else if Common(oldLines, newLines, i, j + 1) >= Common(oldLines, newLines, i + 1, j) then Common(oldLines, newLines, i, j + 1)
               else Common(oldLines, newLines, i + 1, j)
  {}

  lemma CommonEdge(oldLines: seq<string>, newLines: seq<string>, i: nat)
    requires i <= |oldLines|
    ensures Common(oldLines, newLines, i, 0) == 0
  {}

  method FillRow(oldLines: seq<string>, newLines: seq<string>, row: nat, previous: array<nat>, current: array<nat>,
                 start: nat, late: nat -> bool) returns (steps: nat, expired: bool)
    requires row < |oldLines|
    requires previous.Length == current.Length == |newLines| + 1 && previous != current
    requires forall k :: 0 <= k <= |newLines| ==> previous[k] == Common(oldLines, newLines, row, k)
    requires current[0] == 0
    modifies current
    ensures current[0] == 0
    ensures expired ==> start < steps <= start + |newLines| && steps % 1024 == 0 && late(steps)
    ensures !expired ==> steps == start + |newLines|
    ensures !expired ==> forall k :: 0 <= k <= |newLines| ==> current[k] == Common(oldLines, newLines, row + 1, k)
  {
    hide *;
    CommonEdge(oldLines, newLines, row + 1);
    steps := start;
    for j := 0 to |newLines|
      invariant steps == start + j
      invariant forall k :: 0 <= k <= |newLines| ==> previous[k] == Common(oldLines, newLines, row, k)
      invariant forall k :: 0 <= k <= j ==> current[k] == Common(oldLines, newLines, row + 1, k)
    {
      CommonStep(oldLines, newLines, row, j);
      if oldLines[row] == newLines[j] {
        current[j+1] := previous[j] + 1;
      } else if previous[j+1] >= current[j] {
        current[j+1] := previous[j+1];
      } else {
        current[j+1] := current[j];
      }
      steps := steps + 1;
      if steps % 1024 == 0 && late(steps) {
        return steps, true;
      }
    }
    expired := false;
  }

  /** The clock is asked at a step of the whole table and answers that the budget is spent. */
  predicate Late(late: nat -> bool, rows: nat, columns: nat) {
    exists s :: 0 < s <= rows * columns && s % 1024 == 0 && late(s)
  }

  lemma StepInTable(row: nat, rows: nat, columns: nat, step: nat)
    requires row < rows && step <= row * columns + columns
    ensures step <= rows * columns
  {
    assert (row + 1) * columns <= rows * columns;
  }

  method CommonLength(oldLines: seq<string>, newLines: seq<string>, late: nat -> bool) returns (common: nat, expired: bool)
    ensures expired ==> Late(late, |oldLines|, |newLines|)
    ensures !expired ==> common == Common(oldLines, newLines, |oldLines|, |newLines|)
  {
    var previous := new nat[|newLines| + 1](_ => 0);
    var current := new nat[|newLines| + 1](_ => 0);
    var steps := 0;
    for i := 0 to |oldLines|
      invariant previous != current && previous.Length == current.Length == |newLines| + 1
      invariant fresh(previous) && fresh(current)
      invariant forall k :: 0 <= k <= |newLines| ==> previous[k] == Common(oldLines, newLines, i, k)
      invariant current[0] == 0
      invariant steps == i * |newLines|
    {
      steps, expired := FillRow(oldLines, newLines, i, previous, current, steps, late);
      if expired {
        StepInTable(i, |oldLines|, |newLines|, steps);
        return 0, true;
      }
      previous, current := current, previous;
      forall k | 0 <= k <= |newLines| {
        current[k] := 0;
      }
    }
    return previous[|newLines|], false;
  }

  /** The counts of an edit that keeps a common subsequence: a longest one, or at worst none at all, which
      can only be for a table of 1024 cells or more. */
  ghost predicate EditCounts(oldLines: seq<string>, newLines: seq<string>, additions: nat, deletions: nat) {
    && additions <= |newLines| && deletions <= |oldLines| && |newLines| - additions == |oldLines| - deletions
    && (IsLongestCommon(|newLines| - additions, oldLines, newLines)
        || (additions == |newLines| && deletions == |oldLines| && |oldLines| * |newLines| >= 1024))
  }

  lemma SmallFits(a: seq<string>, b: seq<string>)
    requires |a| * |b| < 1024
    ensures Fits(a, b)
  {
    if |a| > 0 {
      var n := 4_000_000 / |a|;
      if |b| > n {
        assert |a| * |b| >= |a| * (n + 1);
        assert |a| * (n + 1) > 4_000_000 - |a| + |a| - 1;
      }
    }
  }

  lemma LateIsLarge(late: nat -> bool, rows: nat, columns: nat)
    requires Late(late, rows, columns)
    ensures rows * columns >= 1024
  {}

  /** `diffLineStats`.  Without an early exit the counts are those of a smallest line
      edit; every exit keeps their difference equal to the change in line count. */
  method DiffLineStats(oldContent: Option<string>, newContent: Option<string>, late: nat -> bool)
    returns (additions: nat, deletions: nat)
    ensures additions - deletions == |ContentLines(newContent)| - |ContentLines(oldContent)|
    ensures additions <= |ContentLines(newContent)| && deletions <= |ContentLines(oldContent)|
    ensures Fits(ContentLines(oldContent), ContentLines(newContent))
            && !Late(late, |ContentLines(oldContent)|, |ContentLines(newContent)|)
            ==> IsLongestCommon(|ContentLines(newContent)| - additions, ContentLines(oldContent), ContentLines(newContent))
    ensures EditCounts(ContentLines(oldContent), ContentLines(newContent), additions, deletions)
  {
    var oldLines, newLines := ContentLines(oldContent), ContentLines(newContent);
    CommonIsLongest(oldLines, newLines);
    FullReplacement(oldLines, newLines);
    hide ContentLines, Common, IsLongestCommon, EditCounts, Late;
    if |oldLines| == 0 || |newLines| == 0 {
      return |newLines|, |oldLines|;
    }
    if |newLines| > 4_000_000 / |oldLines| {
      return |newLines|, |oldLines|;
    }
    var common, expired := CommonLength(oldLines, newLines, late);
    if expired {
      LateIsLarge(late, |oldLines|, |newLines|);
      return |newLines|, |oldLines|;
    }
    KeptCounts(oldLines, newLines, common);
    return |newLines| - common, |oldLines| - common;
  }

  lemma KeptCounts(oldLines: seq<string>, newLines: seq<string>, common: nat)
    requires common <= |oldLines| && common <= |newLines| && IsLongestCommon(common, oldLines, newLines)
    ensures EditCounts(oldLines, newLines, |newLines| - common, |oldLines| - common)
  {
    hide IsLongestCommon;
  }

  /** Nothing in common, or nothing found out about it. */
  lemma FullReplacement(oldLines: seq<string>, newLines: seq<string>)
    ensures oldLines == [] || newLines == [] || !Fits(oldLines, newLines) || |oldLines| * |newLines| >= 1024 ==>
              EditCounts(oldLines, newLines, |newLines|, |oldLines|)
    ensures oldLines == [] || newLines == [] ==> IsLongestCommon(0, oldLines, newLines)
  {
    if oldLines == [] || newLines == [] {
      CommonIsLongest(oldLines, newLines);
      assert Common(oldLines, newLines, |oldLines|, |newLines|) == 0;
    } else if |oldLines| * |newLines| < 1024 {
      SmallFits(oldLines, newLines);
    }
    hide IsLongestCommon;
  }
}
