/**
 * Cutting a sequence into maximal runs: neighbours that join stay together, neighbours that do not are
 * cut apart. Two loops of the adapters build such a cut in place; this module says what it is.
 */
module Runs {

  function Flatten<T>(runs: seq<seq<T>>): seq<T> {
    if runs == [] then [] else runs[0] + Flatten(runs[1..])
  }

  /** Neighbours all join. */
  ghost predicate Joined<T>(run: seq<T>, joins: (T, T) -> bool) {
    forall i | 0 <= i < |run| - 1 :: joins(run[i], run[i + 1])
  }

  /** `runs` cuts `s` into non-empty runs, joined inside and not joined across any boundary. */
  ghost predicate IsRuns<T>(runs: seq<seq<T>>, s: seq<T>, joins: (T, T) -> bool) {
    && Flatten(runs) == s
    && (forall i | 0 <= i < |runs| :: runs[i] != [] && Joined(runs[i], joins))
    && (forall i | 0 <= i < |runs| - 1 :: !joins(runs[i][|runs[i]| - 1], runs[i + 1][0]))
  }

  lemma {:induction false} FlattenAppend<T>(a: seq<seq<T>>, b: seq<seq<T>>)
    ensures Flatten(a + b) == Flatten(a) + Flatten(b)
  {
    if a == [] {
      assert a + b == b;
    } else {
      assert (a + b)[1..] == a[1..] + b;
      FlattenAppend(a[1..], b);
    }
  }

  lemma {:induction false} FlattenSingle<T>(run: seq<T>)
    ensures Flatten([run]) == run
  {
    assert [run][1..] == [];
  }

  lemma {:induction false} RunsEmptyIff<T>(runs: seq<seq<T>>, s: seq<T>, joins: (T, T) -> bool)
    requires IsRuns(runs, s, joins)
    ensures runs == [] <==> s == []
    ensures runs != [] ==> s[0] == runs[0][0] && s[|s| - 1] == runs[|runs| - 1][|runs[|runs| - 1]| - 1]
  {
    if runs != [] {
      var n := |runs| - 1;
      assert runs == runs[..n] + [runs[n]];
      FlattenAppend(runs[..n], [runs[n]]);
      FlattenSingle(runs[n]);
    }
  }

  /** Cuts with the next element appended: it joins the last run or starts one of its own. */
  function Extend<T>(runs: seq<seq<T>>, x: T, joins: (T, T) -> bool): seq<seq<T>>
    requires forall i | 0 <= i < |runs| :: runs[i] != []
  {
    var n := |runs| - 1;
    if n >= 0 && joins(runs[n][|runs[n]| - 1], x) then runs[..n] + [runs[n] + [x]] else runs + [[x]]
  }

  lemma {:induction false} ExtendIsRuns<T>(runs: seq<seq<T>>, s: seq<T>, x: T, joins: (T, T) -> bool)
    requires IsRuns(runs, s, joins)
    ensures IsRuns(Extend(runs, x, joins), s + [x], joins)
  {
    var n, r := |runs| - 1, Extend(runs, x, joins);
    FlattenSingle([x]);
    if n >= 0 && joins(runs[n][|runs[n]| - 1], x) {
      assert runs == runs[..n] + [runs[n]];
      FlattenAppend(runs[..n], [runs[n]]);
      FlattenAppend(runs[..n], [runs[n] + [x]]);
      FlattenSingle(runs[n]);
      FlattenSingle(runs[n] + [x]);
      assert Joined(runs[n] + [x], joins);
    } else {
      FlattenAppend(runs, [[x]]);
      assert Joined([x], joins);
    }
  }

  lemma {:induction false} TailIsRuns<T>(runs: seq<seq<T>>, s: seq<T>, joins: (T, T) -> bool)
    requires IsRuns(runs, s, joins) && runs != []
    ensures runs[0] <= s && IsRuns(runs[1..], s[|runs[0]|..], joins)
  {
  }

  /** There is one way to cut a sequence into maximal runs. */
  lemma {:induction false} RunsUnique<T>(a: seq<seq<T>>, b: seq<seq<T>>, s: seq<T>, joins: (T, T) -> bool)
    requires IsRuns(a, s, joins) && IsRuns(b, s, joins)
    ensures a == b
    decreases |s|
  {
    RunsEmptyIff(a, s, joins);
    RunsEmptyIff(b, s, joins);
    if s != [] {
      TailIsRuns(a, s, joins);
      TailIsRuns(b, s, joins);
      FirstRunNoLonger(a, b, s, joins);
      FirstRunNoLonger(b, a, s, joins);
      assert a[0] == s[..|a[0]|] == b[0];
      RunsUnique(a[1..], b[1..], s[|a[0]|..], joins);
      assert a == [a[0]] + a[1..] && b == [b[0]] + b[1..];
    }
  }

  lemma {:induction false} FirstRunNoLonger<T>(a: seq<seq<T>>, b: seq<seq<T>>, s: seq<T>, joins: (T, T) -> bool)
    requires IsRuns(a, s, joins) && IsRuns(b, s, joins) && a != [] && b != []
    ensures |b[0]| <= |a[0]|
  {
    TailIsRuns(a, s, joins);
    TailIsRuns(b, s, joins);
    RunsEmptyIff(a[1..], s[|a[0]|..], joins);
    if |a[0]| < |b[0]| { assert false; }
  }

  /** The last element of each run. */
  function Lasts<T>(runs: seq<seq<T>>): seq<T>
    requires forall i | 0 <= i < |runs| :: runs[i] != []
  {
    seq(|runs|, i requires 0 <= i < |runs| => runs[i][|runs[i]| - 1])
  }

  /** Extending the last run changes its last element; starting a run adds one. */
  lemma {:induction false} LastsOfExtend<T>(runs: seq<seq<T>>, x: T, joins: (T, T) -> bool)
    requires forall i | 0 <= i < |runs| :: runs[i] != []
    ensures forall i | 0 <= i < |Extend(runs, x, joins)| :: Extend(runs, x, joins)[i] != []
    ensures var n := |runs| - 1;
      Lasts(Extend(runs, x, joins)) == if n >= 0 && joins(Lasts(runs)[n], x) then Lasts(runs)[n := x] else Lasts(runs) + [x]
  {
  }

  /** Those elements read off the sequence: the ones whose successor does not join them. */
  function RunEnds<T>(s: seq<T>, joins: (T, T) -> bool): seq<T> {
    if s == [] then []
    else if |s| > 1 && joins(s[0], s[1]) then RunEnds(s[1..], joins)
    else [s[0]] + RunEnds(s[1..], joins)
  }

  lemma {:induction false} RunEndsOfRun<T>(run: seq<T>, rest: seq<T>, joins: (T, T) -> bool)
    requires run != [] && Joined(run, joins)
    requires rest != [] ==> !joins(run[|run| - 1], rest[0])
    ensures RunEnds(run + rest, joins) == [run[|run| - 1]] + RunEnds(rest, joins)
  {
    if |run| == 1 {
      assert (run + rest)[1..] == rest;
    } else {
      assert (run + rest)[1..] == run[1..] + rest;
      assert joins(run[0], run[1]);
      assert Joined(run[1..], joins);
      RunEndsOfRun(run[1..], rest, joins);
    }
  }

  lemma {:induction false} LastsAreRunEnds<T>(runs: seq<seq<T>>, s: seq<T>, joins: (T, T) -> bool)
    requires IsRuns(runs, s, joins)
    ensures Lasts(runs) == RunEnds(s, joins)
  {
    RunsEmptyIff(runs, s, joins);
    if runs != [] {
      TailIsRuns(runs, s, joins);
      var rest := s[|runs[0]|..];
      RunsEmptyIff(runs[1..], rest, joins);
      LastsAreRunEnds(runs[1..], rest, joins);
      assert s == runs[0] + rest;
      RunEndsOfRun(runs[0], rest, joins);
      assert Lasts(runs) == [runs[0][|runs[0]| - 1]] + Lasts(runs[1..]);
    }
  }

  /** An element that joins its successor, and is joined to exactly what its successor is, ends no run. */
  lemma {:induction false} JoinedElementAddsNothing<T>(a: seq<T>, x: T, y: T, b: seq<T>, joins: (T, T) -> bool)
    requires joins(x, y)
    requires forall p :: joins(p, x) == joins(p, y)
    ensures RunEnds(a + [x, y] + b, joins) == RunEnds(a + [y] + b, joins)
  {
    var long, short := a + [x, y] + b, a + [y] + b;
    if a == [] {
      assert long[1..] == short;
    } else {
      assert long[1..] == a[1..] + [x, y] + b && short[1..] == a[1..] + [y] + b;
      JoinedElementAddsNothing(a[1..], x, y, b, joins);
      if |a| == 1 { assert long[1] == x && short[1] == y; } else { assert long[1] == short[1]; }
    }
  }

  /** Every sequence has its maximal runs. */
  lemma {:induction false} RunsExist<T>(s: seq<T>, joins: (T, T) -> bool) returns (runs: seq<seq<T>>)
    ensures IsRuns(runs, s, joins)
  {
    if s == [] {
      runs := [];
    } else {
      var n := |s| - 1;
      var before := RunsExist(s[..n], joins);
      ExtendIsRuns(before, s[..n], s[n], joins);
      runs := Extend(before, s[n], joins);
      assert s[..n] + [s[n]] == s;
    }
  }
}
