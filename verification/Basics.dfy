/** Shared value types, the byte order of strings and line splitting. */
module Basics {
  datatype Option<+T> = Some(value: T) | None

  datatype Result<+T, +E> = Ok(value: T) | Err(error: E)

  predicate NoDuplicates<T(==)>(s: seq<T>) {
    forall i, j :: 0 <= i < j < |s| ==> s[i] != s[j]
  }

  // ---------- picking out ----------

  /** `out` is what stands at the rising positions `at`. */
  predicate Drawn<T(==)>(all: seq<T>, at: seq<nat>, out: seq<T>) {
    && |at| == |out|
    && (forall k, l :: 0 <= k < l < |at| ==> at[k] < at[l])
    && (forall k :: 0 <= k < |at| ==> at[k] < |all| && out[k] == all[at[k]])
  }

  /** Exactly the wanted positions are drawn from. */
  predicate Wanted<T>(want: T -> bool, all: seq<T>, at: seq<nat>) {
    forall i: nat :: i < |all| ==> (i in at <==> want(all[i]))
  }

  /** Exactly the wanted elements, each once and in their order. */
  ghost predicate Sifted<T(!new)>(want: T -> bool, all: seq<T>, out: seq<T>) {
    exists at: seq<nat> :: Drawn(all, at, out) && Wanted(want, all, at)
  }

  lemma SiftedNothing<T(!new)>(want: T -> bool)
    ensures Sifted(want, [], [])
  {
    assert Drawn<T>([], [], []) && Wanted(want, [], []);
  }

  lemma SiftedLast<T(!new)>(want: T -> bool, front: seq<T>, out: seq<T>, last: T)
    requires Sifted(want, front, out)
    ensures Sifted(want, front + [last], if want(last) then out + [last] else out)
  {
    var at: seq<nat> :| Drawn(front, at, out) && Wanted(want, front, at);
    if want(last) { DrawnLast(want, front, at, out, last); } else { PassedLast(want, front, at, out, last); }
  }

  lemma DrawnLast<T(!new)>(want: T -> bool, front: seq<T>, at: seq<nat>, out: seq<T>, last: T)
    requires Drawn(front, at, out) && Wanted(want, front, at) && want(last)
    ensures Sifted(want, front + [last], out + [last])
  {
    var all, n, now := front + [last], |front|, at + [|front|];
    assert Drawn(all, now, out + [last]);
    hide Drawn;
    forall i: nat | i < |all|
      ensures i in now <==> want(all[i])
    {
      assert now[|at|] == n;
      if i < n { assert all[i] == front[i]; }
    }
    assert Wanted(want, all, now);
  }

  lemma PassedLast<T(!new)>(want: T -> bool, front: seq<T>, at: seq<nat>, out: seq<T>, last: T)
    requires Drawn(front, at, out) && Wanted(want, front, at) && !want(last)
    ensures Sifted(want, front + [last], out)
  {
    var all, n := front + [last], |front|;
    assert Drawn(all, at, out);
    assert forall k :: 0 <= k < |at| ==> at[k] < n;
    hide Drawn;
    forall i: nat | i < |all|
      ensures i in at <==> want(all[i])
    {
      if i < n { assert all[i] == front[i]; }
    }
    assert Wanted(want, all, at);
  }

  // ---------- the order of sort.Strings ----------

  predicate Less(a: string, b: string) {
    b != [] && (a == [] || a[0] < b[0] || (a[0] == b[0] && Less(a[1..], b[1..])))
  }

  lemma LessIrreflexive(a: string)
    ensures !Less(a, a)
  {}

  lemma LessTransitive(a: string, b: string, c: string)
    requires Less(a, b) && Less(b, c)
    ensures Less(a, c)
  {}

  lemma {:induction false} LessTotal(a: string, b: string)
    ensures Less(a, b) || a == b || Less(b, a)
  {
    if a != [] && b != [] && a[0] == b[0] {
      LessTotal(a[1..], b[1..]);
      assert a == [a[0]] + a[1..] && b == [b[0]] + b[1..];
    }
  }

  predicate StrictlySorted(s: seq<string>) {
    forall i, j :: 0 <= i < j < |s| ==> Less(s[i], s[j])
  }

  /** The position at which `x` keeps a sorted sequence sorted. */
  method InsertionPoint(s: seq<string>, x: string) returns (k: nat)
    requires StrictlySorted(s) && x !in s
    ensures k <= |s|
    ensures forall i :: 0 <= i < k ==> Less(s[i], x)
    ensures forall i :: k <= i < |s| ==> Less(x, s[i])
  {
    k := 0;
    while k < |s| && Less(s[k], x)
      invariant k <= |s|
      invariant forall i :: 0 <= i < k ==> Less(s[i], x)
    {
      k := k + 1;
    }
    forall i | k <= i < |s|
      ensures Less(x, s[i])
    {
      LessTotal(x, s[k]);
      assert s[k] in s;
      if i > k { LessTransitive(x, s[k], s[i]); }
    }
  }

  /** `sort.Strings` on a set of distinct strings. */
  method SortStrings(keys: set<string>) returns (sorted: seq<string>)
    ensures StrictlySorted(sorted)
    ensures forall k :: k in sorted <==> k in keys
  {
    sorted := [];
    var rest := keys;
    while rest != {}
      invariant rest <= keys
      invariant StrictlySorted(sorted)
      invariant forall k :: k in sorted <==> k in keys && k !in rest
      decreases rest
    {
      var x :| x in rest;
      var k := InsertionPoint(sorted, x);
      ghost var before := sorted;
      sorted := sorted[..k] + [x] + sorted[k..];
      assert before == before[..k] + before[k..];
      rest := rest - {x};
    }
  }

  // ---------- lines ----------

  /** `strings.Split(s, "\n")`. */
  function Split(s: string): (lines: seq<string>)
    ensures lines != []
  {
    if s == [] then [""]
    else
      var rest := Split(s[1..]);
      if s[0] == '\n' then [""] + rest else [[s[0]] + rest[0]] + rest[1..]
  }

  /** `strings.Join(lines, "\n")`. */
  function JoinLines(lines: seq<string>): string {
    if lines == [] then "" else if |lines| == 1 then lines[0] else lines[0] + "\n" + JoinLines(lines[1..])
  }

  predicate NoNewline(line: string) {
    '\n' !in line
  }

  lemma {:induction false} SplitOne(line: string)
    requires NoNewline(line)
    ensures Split(line) == [line]
  {
    if line != [] {
      SplitOne(line[1..]);
      assert line == [line[0]] + line[1..];
    }
  }

  lemma {:induction false} SplitAfter(line: string, rest: string)
    requires NoNewline(line)
    ensures Split(line + "\n" + rest) == [line] + Split(rest)
  {
    var s := line + "\n" + rest;
    if line == [] {
      assert s[1..] == rest;
    } else {
      SplitAfter(line[1..], rest);
      assert s[1..] == line[1..] + "\n" + rest;
      assert line == [line[0]] + line[1..];
    }
  }

  /** Splitting undoes joining when no line holds a newline of its own. */
  lemma {:induction false} SplitJoin(lines: seq<string>)
    requires lines != [] && forall l :: l in lines ==> NoNewline(l)
    ensures Split(JoinLines(lines)) == lines
  {
    assert lines[0] in lines;
    if |lines| == 1 {
      SplitOne(lines[0]);
    } else {
      SplitJoin(lines[1..]);
      SplitAfter(lines[0], JoinLines(lines[1..]));
    }
  }
}
