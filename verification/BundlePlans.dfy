/**
 * Plan records: what a dry-run writes under a plan digest, and what a deploy accepts when it is given one.
 */
module BundlePlans {
  import opened Options

  /** What a plan digest covers. A field that is missing or malformed in a stored record is None. */
  datatype Input = Input(
    bundleSha256: Option<nat>, bindingRevisions: Option<seq<Revision>>, preparedAt: Option<int>, others: seq<int>)

  datatype Revision = Revision(name: nat, revision: nat)

  /** A stored record: the input with the path the bundle was read from, or something that is no object. */
  datatype Stored = NotAnObject | Fields(input: Input, bundlePath: Option<string>)

  datatype PlanRecord = PlanRecord(bundleSha256: nat, bindingRevisions: seq<Revision>, preparedAt: int)

  /** The digest of an input; nothing about it is known but that it is a function. */
  type Digester = Input -> nat

  const PLAN_LIFETIME := 30 * 60 * 1000

  predicate IsPlanExpired(preparedAt: int, now: int) {
    preparedAt > now || now >= preparedAt + PLAN_LIFETIME
  }

  function CheckPlanRecord(value: Stored, planDigest: nat, digest: Digester): Option<PlanRecord> {
    if value.NotAnObject? || digest(value.input) != planDigest then None
    else if value.input.bundleSha256.None? || value.input.bindingRevisions.None? || value.input.preparedAt.None? then None
    else Some(PlanRecord(value.input.bundleSha256.value, value.input.bindingRevisions.value, value.input.preparedAt.value))
  }

  /** Binding revisions in order of their names. */
  function InsertByName(r: Revision, sorted: seq<Revision>): seq<Revision> {
    if sorted == [] || r.name <= sorted[0].name then [r] + sorted else [sorted[0]] + InsertByName(r, sorted[1..])
  }

  function SortedByName(revisions: seq<Revision>): seq<Revision> {
    if revisions == [] then [] else InsertByName(revisions[0], SortedByName(revisions[1..]))
  }

  function PlanDigestInput(bundleSha256: nat, revisions: seq<Revision>, preparedAt: int, others: seq<int>): Input {
    Input(Some(bundleSha256), Some(SortedByName(revisions)), Some(preparedAt), others)
  }

  /**
   * The dry-run's write: the plan digest input is put together again from what was prepared and stored with the
   * path under the digest of the prepared plan, if it reproduces that digest. What is stored is accepted later
   * under its digest and gives back what was planned, and no other record is touched.
   */
  method DryRun(plans: map<nat, Stored>, bundleSha256: nat, revisions: seq<Revision>, preparedAt: int, others: seq<int>,
                bundlePath: string, planDigest: nat, digest: Digester)
    returns (plans': map<nat, Stored>, ok: bool)
    ensures ok <==> digest(PlanDigestInput(bundleSha256, revisions, preparedAt, others)) == planDigest
    ensures ok ==> planDigest in plans' && CheckPlanRecord(plans'[planDigest], planDigest, digest) == Some(PlanRecord(bundleSha256, SortedByName(revisions), preparedAt))
    ensures ok ==> plans'[planDigest].bundlePath == Some(bundlePath)
    ensures plans' == if ok then plans[planDigest := plans'[planDigest]] else plans
  {
    plans', ok := plans, false;
    var input := PlanDigestInput(bundleSha256, revisions, preparedAt, others);
    if digest(input) != planDigest { return; }
    plans' := plans[planDigest := Fields(input, Some(bundlePath))];
    ok := true;
  }

  ghost predicate Injective(digest: Digester) { forall a, b :: digest(a) == digest(b) ==> a == b }

  /** With an injective digest the only record accepted under an input's digest is one that holds the input. */
  lemma {:induction false} AcceptedRecordIsInput(input: Input, found: Stored, digest: Digester)
    requires Injective(digest) && CheckPlanRecord(found, digest(input), digest).Some?
    ensures found.Fields? && found.input == input
  {
  }

  /** The order in which the bindings were supplied does not change the plan. */
  lemma {:induction false} InsertCommutes(a: Revision, b: Revision, sorted: seq<Revision>)
    requires a.name != b.name
    ensures InsertByName(a, InsertByName(b, sorted)) == InsertByName(b, InsertByName(a, sorted))
    decreases |sorted|
  {
    if sorted != [] {
      InsertCommutes(a, b, sorted[1..]);
      var ab, ba := [sorted[0]] + InsertByName(b, sorted[1..]), [sorted[0]] + InsertByName(a, sorted[1..]);
      assert ab[1..] == InsertByName(b, sorted[1..]) && ba[1..] == InsertByName(a, sorted[1..]);
    }
    assert ([a] + sorted)[1..] == sorted && ([b] + sorted)[1..] == sorted;
    assert ([a] + ([b] + sorted))[1..] == [b] + sorted && ([b] + ([a] + sorted))[1..] == [a] + sorted;
  }

  predicate DistinctNames(revisions: seq<Revision>) {
    forall i, j | 0 <= i < j < |revisions| :: revisions[i].name != revisions[j].name
  }

  /** Moving one binding's revision to the front gives the same sorted list. */
  lemma {:induction false} SortIgnoresPosition(before: seq<Revision>, r: Revision, after: seq<Revision>)
    requires DistinctNames(before + [r] + after)
    ensures SortedByName(before + [r] + after) == SortedByName([r] + before + after)
    decreases |before|
  {
    if before == [] {
      assert before + [r] + after == [r] + before + after;
    } else {
      var head, tail := before[0], before[1..];
      var all := before + [r] + after;
      assert all[1..] == tail + [r] + after;
      assert forall k | 0 <= k < |all[1..]| :: all[1..][k] == all[k + 1];
      SortIgnoresPosition(tail, r, after);
      SortCons(r, tail + after, [r] + tail + after);
      SortCons(r, before + after, [r] + before + after);
      SortCons(head, tail + after, before + after);
      assert all[0] == head && all[|before|] == r;
      InsertCommutes(head, r, SortedByName(tail + after));
    }
  }

  lemma {:induction false} SortCons(r: Revision, rest: seq<Revision>, all: seq<Revision>)
    requires all == [r] + rest
    ensures SortedByName(all) == InsertByName(r, SortedByName(rest))
  {
    assert all[1..] == rest && all[0] == r;
  }

  function Without(b: seq<Revision>, i: nat): seq<Revision>
    requires i < |b|
  {
    b[..i] + b[i + 1..]
  }

  lemma {:induction false} WithoutHolds(b: seq<Revision>, i: nat)
    requires i < |b|
    ensures multiset(Without(b, i)) == multiset(b) - multiset{b[i]}
    ensures DistinctNames(b) ==> DistinctNames(Without(b, i))
  {
    assert b == b[..i] + [b[i]] + b[i + 1..];
    assert multiset(b) == multiset(b[..i]) + multiset{b[i]} + multiset(b[i + 1..]);
    assert forall k | 0 <= k < |b| - 1 :: Without(b, i)[k] == b[if k < i then k else k + 1];
  }

  lemma {:induction false} SortFrom(b: seq<Revision>, i: nat)
    requires i < |b| && DistinctNames(b)
    ensures SortedByName(b) == InsertByName(b[i], SortedByName(Without(b, i)))
  {
    assert b == b[..i] + [b[i]] + b[i + 1..];
    SortIgnoresPosition(b[..i], b[i], b[i + 1..]);
    var moved := [b[i]] + b[..i] + b[i + 1..];
    assert moved[1..] == Without(b, i) && moved[0] == b[i];
  }

  /** The sorted list depends on which bindings there are and not on the order they were supplied in. */
  lemma {:induction false} SortIgnoresOrder(a: seq<Revision>, b: seq<Revision>)
    requires DistinctNames(a) && DistinctNames(b) && multiset(a) == multiset(b)
    ensures SortedByName(a) == SortedByName(b)
    decreases |a|
  {
    if a == [] {
      assert |multiset(b)| == |b|;
    } else {
      assert a[0] in multiset(b);
      var i :| 0 <= i < |b| && b[i] == a[0];
      WithoutHolds(a, 0);
      WithoutHolds(b, i);
      SortIgnoresOrder(Without(a, 0), Without(b, i));
      SortFrom(a, 0);
      SortFrom(b, i);
    }
  }

  lemma {:induction false} InsertKeepsAll(r: Revision, sorted: seq<Revision>)
    ensures multiset(InsertByName(r, sorted)) == multiset{r} + multiset(sorted)
    decreases |sorted|
  {
    if sorted != [] && r.name > sorted[0].name {
      InsertKeepsAll(r, sorted[1..]);
      assert sorted == [sorted[0]] + sorted[1..];
    }
  }

  lemma {:induction false} SortKeepsAll(revisions: seq<Revision>)
    ensures multiset(SortedByName(revisions)) == multiset(revisions)
    decreases |revisions|
  {
    if revisions != [] {
      SortKeepsAll(revisions[1..]);
      InsertKeepsAll(revisions[0], SortedByName(revisions[1..]));
      assert revisions == [revisions[0]] + revisions[1..];
    }
  }

  /** Sorting tells two lists of bindings apart exactly when they are different bindings. */
  lemma {:induction false} SortedSameIff(a: seq<Revision>, b: seq<Revision>)
    requires DistinctNames(a) && DistinctNames(b)
    ensures SortedByName(a) == SortedByName(b) <==> multiset(a) == multiset(b)
  {
    SortKeepsAll(a);
    SortKeepsAll(b);
    if multiset(a) == multiset(b) { SortIgnoresOrder(a, b); }
  }
}
