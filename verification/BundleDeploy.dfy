/**
 * `rayspec deploy <file.ray>`: which plan is applied, what a signal stops, and when a deployment serves.
 */
module BundleDeploy {
  import opened Options
  import opened BundlePlans

  datatype Phase = Preparing | Applying | Booting

  /** What the verb did, in order; the apply with the digest and the time of the plan it ran under. */
  datatype Event = Prepared | PlanWritten | Staged | ApplyBegan(planDigest: nat, preparedAt: int) | ApplyEnded(ok: bool) | Served

  datatype Answer = NothingApplied | Refused | PlanShown | StoppedAfterApply | Serving

  /**
   * The command and the world: the state directory's stored plans, the bindings' revisions, and in `others` what
   * else a plan covers, read from bundle and environment. `signals` says in which of the intervals before a moment
   * a signal arrives, any number of times; `bootRunsHook` is false for a static-profile document, whose boot has no
   * schema to change and never calls the hook that applies.
   */
  datatype World = World(
    filesOk: bool, bundleSha256: Option<nat>, bindingsOk: bool, configurationOk: bool, environmentOk: bool,
    planDigest: Option<nat>, plans: map<nat, Stored>, digest: Digester, now: int, headRead: bool,
    revisions: seq<Revision>, others: seq<int>, prepares: bool, needsReview: bool, blocked: bool, recordedUnder: set<nat>,
    dryRun: bool, bundlePath: string, planWritable: bool,
    stages: bool, bootRunsHook: bool, applyOk: bool, signals: set<nat>)

  // The moments a signal is looked at, in order: five safe points and the end of the hook.
  const OPENED := 1
  const BINDINGS_CHECKED := 2
  const PLAN_READ := 3
  const PLAN_PREPARED := 4
  const VERSION_STAGED := 5
  const APPLY_FINISHED := 6

  predicate ArrivedBy(w: World, moment: nat) { exists s | s in w.signals :: s <= moment }

  /** The record stored under the digest the operator gave, if it is one. */
  function Reviewed(w: World): Option<PlanRecord> {
    if w.planDigest.Some? && w.planDigest.value in w.plans
    then CheckPlanRecord(w.plans[w.planDigest.value], w.planDigest.value, w.digest) else None
  }

  /** The digest names a stored record of this bundle that has not expired. */
  predicate RecordAccepted(w: World) {
    w.planDigest.Some? ==>
      Reviewed(w).Some? && Some(Reviewed(w).value.bundleSha256) == w.bundleSha256 && !IsPlanExpired(Reviewed(w).value.preparedAt, w.now)
  }

  function PreparedAt(w: World): int { if w.planDigest.Some? && Reviewed(w).Some? then Reviewed(w).value.preparedAt else w.now }

  /** The plan as prepared now, or recomputed at the time of the plan that was given. */
  function PreparedInput(w: World): Input
    requires w.bundleSha256.Some?
  {
    PlanDigestInput(w.bundleSha256.value, w.revisions, PreparedAt(w), w.others)
  }

  function PreparedDigest(w: World): nat
    requires w.bundleSha256.Some?
  {
    w.digest(PreparedInput(w))
  }

  /** The plan still matches, or a deploy under its digest is on record already. */
  predicate StillMatches(w: World)
    requires w.bundleSha256.Some?
  {
    w.planDigest.Some? ==> PreparedDigest(w) == w.planDigest.value || w.planDigest.value in w.recordedUnder
  }

  /** Nothing unreviewed: either the operator gave a digest or the plan changes neither schema nor grants. */
  predicate ReviewSettled(w: World) { w.planDigest.Some? || !w.needsReview }

  predicate Unblocked(w: World)
    requires w.bundleSha256.Some?
  {
    !(w.blocked && (w.planDigest.None? || PreparedDigest(w) == w.planDigest.value))
  }

  /** The command comes to a moment unless a signal stops it before. */
  predicate Reaches(w: World, moment: nat) {
    && (moment >= OPENED ==> w.filesOk)
    && (moment >= BINDINGS_CHECKED ==> w.bundleSha256.Some? && w.bindingsOk)
    && (moment >= PLAN_READ ==> w.configurationOk && w.environmentOk && RecordAccepted(w) && w.headRead)
    && (moment >= PLAN_PREPARED ==> w.prepares && StillMatches(w))
    && (moment >= VERSION_STAGED ==> !w.dryRun && ReviewSettled(w) && Unblocked(w) && w.stages)
  }

  predicate SeenAt(w: World, moment: nat) { Reaches(w, moment) && ArrivedBy(w, moment) }

  /** A signal is seen at one of the first safe points, up to some moment. */
  predicate SeenBy(w: World, moment: nat) { exists m: nat :: OPENED <= m <= moment && SeenAt(w, m) }

  /** An apply may run: at every safe point nothing had arrived, and the plan is an accepted one. */
  predicate MayBoot(w: World) { Reaches(w, VERSION_STAGED) && !ArrivedBy(w, VERSION_STAGED) }

  /** The plan is shown: a dry-run that reached its end without a signal and could write the record. */
  predicate Shows(w: World) { Reaches(w, PLAN_PREPARED) && !ArrivedBy(w, PLAN_PREPARED) && w.dryRun && w.planWritable }

  /**
   * The plan an apply runs under: the one prepared now, when it needs no review; or the one whose stored
   * record hashes to the digest given, names this bundle, has not expired and still matches (or is on
   * record as deployed already).
   */
  predicate AcceptedUnder(w: World, planDigest: nat, preparedAt: int) {
    && w.bundleSha256.Some?
    && (if w.planDigest.None? then
          !w.needsReview && planDigest == PreparedDigest(w) && preparedAt == w.now
        else
          && planDigest == w.planDigest.value && planDigest in w.plans
          && CheckPlanRecord(w.plans[planDigest], planDigest, w.digest).Some?
          && w.plans[planDigest].input.bundleSha256 == w.bundleSha256
          && w.plans[planDigest].input.preparedAt == Some(preparedAt)
          && preparedAt <= w.now < preparedAt + PLAN_LIFETIME
          && (PreparedDigest(w) == planDigest || planDigest in w.recordedUnder))
  }

  // ---- what a run promises --------------------------------------------------------------------------------

  /** The apply runs under an accepted plan, once the version is staged, and exactly then. */
  predicate AppliesAccepted(w: World, log: seq<Event>) {
    && (forall k | 0 <= k < |log| && log[k].ApplyBegan? ::
          AcceptedUnder(w, log[k].planDigest, log[k].preparedAt) && k == 2 && log[..2] == [Prepared, Staged])
    && ((exists k :: 0 <= k < |log| && log[k].ApplyBegan?) <==> MayBoot(w) && w.bootRunsHook)
  }

  /**
   * "Nothing was applied" is answered exactly when a signal is seen at a safe point, and it is true, though the
   * version may have been staged.
   */
  predicate AnswersNothingApplied(w: World, log: seq<Event>, answer: Answer) {
    && (answer.NothingApplied? <==> SeenBy(w, VERSION_STAGED))
    && (answer.NothingApplied? ==> forall k | 0 <= k < |log| :: !log[k].ApplyBegan? && log[k] != Served)
    && (answer.NothingApplied? && Staged in log <==> Reaches(w, VERSION_STAGED) && ArrivedBy(w, VERSION_STAGED) && !ArrivedBy(w, PLAN_PREPARED))
  }

  /** What is served was applied with success, unless the boot does not run the hook; then nothing stops it. */
  predicate ServesAfterApply(w: World, log: seq<Event>, answer: Answer) {
    && (Served in log <==> answer.Serving?)
    && (answer.Serving? ==> |log| == (if w.bootRunsHook then 5 else 3) && log[..2] == [Prepared, Staged] && log[|log| - 1] == Served)
    && (answer.Serving? && w.bootRunsHook ==> log[2].ApplyBegan? && log[3] == ApplyEnded(true))
    && (answer.Serving? <==> MayBoot(w) && (w.bootRunsHook ==> w.applyOk && !ArrivedBy(w, APPLY_FINISHED)))
    && (answer.StoppedAfterApply? <==> MayBoot(w) && w.bootRunsHook && w.applyOk && ArrivedBy(w, APPLY_FINISHED))
    && (MayBoot(w) && ArrivedBy(w, APPLY_FINISHED) ==> (answer.Serving? <==> !w.bootRunsHook))
  }

  /** The stored plans change only when a plan is shown, and then under its digest only. */
  predicate StoresShown(w: World, plans: map<nat, Stored>, answer: Answer) {
    && (answer.PlanShown? <==> Shows(w))
    && (!answer.PlanShown? ==> plans == w.plans)
    && (answer.PlanShown? ==> w.bundleSha256.Some? && HoldsShown(w, plans) && plans == w.plans[PreparedDigest(w) := plans[PreparedDigest(w)]])
  }

  /** Under the digest of the prepared plan stands a record that will be accepted and gives the plan back. */
  predicate HoldsShown(w: World, plans: map<nat, Stored>)
    requires w.bundleSha256.Some?
  {
    && PreparedDigest(w) in plans
    && CheckPlanRecord(plans[PreparedDigest(w)], PreparedDigest(w), w.digest)
      == Some(PlanRecord(w.bundleSha256.value, SortedByName(w.revisions), PreparedAt(w)))
  }

  predicate Deployed(w: World, log: seq<Event>, answer: Answer, plans: map<nat, Stored>) {
    AppliesAccepted(w, log) && AnswersNothingApplied(w, log, answer) && ServesAfterApply(w, log, answer) && StoresShown(w, plans, answer)
  }

  // ---- the verb ---------------------------------------------------------------------------------------------

  /** Up to the plan that was given: an answer when the command ends before. */
  method ReadPlan(w: World) returns (stopped: Option<Answer>)
    ensures stopped.Some? ==> stopped.value.NothingApplied? || stopped.value.Refused?
    ensures stopped.None? <==> Reaches(w, PLAN_READ) && !ArrivedBy(w, PLAN_READ)
    ensures stopped == Some(NothingApplied) <==> SeenAt(w, OPENED) || SeenAt(w, BINDINGS_CHECKED) || SeenAt(w, PLAN_READ)
  {
    if !w.filesOk { return Some(Refused); }
    var interrupted := ArrivedBy(w, OPENED);
    if interrupted { return Some(NothingApplied); }
    if w.bundleSha256.None? || !w.bindingsOk { return Some(Refused); }
    interrupted := ArrivedBy(w, BINDINGS_CHECKED);
    if interrupted { return Some(NothingApplied); }
    if !w.configurationOk || !w.environmentOk { return Some(Refused); }
    if w.planDigest.Some? {
      var record := Reviewed(w);
      if record.None? { return Some(Refused); }
      if Some(record.value.bundleSha256) != w.bundleSha256 { return Some(Refused); }
      if IsPlanExpired(record.value.preparedAt, w.now) { return Some(Refused); }
    }
    if !w.headRead { return Some(Refused); }
    interrupted := ArrivedBy(w, PLAN_READ);
    if interrupted { return Some(NothingApplied); }
    stopped := None;
  }

  /** From the prepared plan to the staged version, or a dry-run's end. */
  method StagePlan(w: World) returns (log: seq<Event>, stopped: Option<Answer>, plans: map<nat, Stored>)
    requires Reaches(w, PLAN_READ) && !ArrivedBy(w, PLAN_READ)
    ensures stopped.None? ==> log == [Prepared, Staged]
    ensures stopped.Some? ==> log == [Prepared] || log == [Prepared, PlanWritten] || log == [Prepared, Staged]
    ensures stopped.Some? ==> !stopped.value.Serving? && !stopped.value.StoppedAfterApply?
    ensures stopped.None? <==> MayBoot(w)
    ensures Staged in log ==> Reaches(w, VERSION_STAGED)
    ensures stopped == Some(NothingApplied) <==> SeenAt(w, PLAN_PREPARED) || SeenAt(w, VERSION_STAGED)
    ensures stopped == Some(NothingApplied) ==> (Staged in log <==> !ArrivedBy(w, PLAN_PREPARED))
    ensures StoresShown(w, plans, if stopped.Some? then stopped.value else Refused)
  {
    plans := w.plans;
    log := [Prepared];
    var recomputed := PreparedDigest(w);
    if w.planDigest.Some? && recomputed != w.planDigest.value && w.planDigest.value !in w.recordedUnder {
      return log, Some(Refused), plans;
    }
    if !w.prepares { return log, Some(Refused), plans; }
    var interrupted := ArrivedBy(w, PLAN_PREPARED);
    if interrupted { return log, Some(NothingApplied), plans; }
    if w.dryRun {
      if !w.planWritable { return log, Some(Refused), plans; }
      var ok;
      plans, ok := DryRun(plans, w.bundleSha256.value, w.revisions, PreparedAt(w), w.others, w.bundlePath, recomputed, w.digest);
      return log + [PlanWritten], Some(PlanShown), plans;
    }
    if w.planDigest.None? && w.needsReview { return log, Some(Refused), plans; }
    var planDigest := if w.planDigest.Some? then w.planDigest.value else recomputed;
    if recomputed == planDigest && w.blocked { return log, Some(Refused), plans; }
    if !w.stages { return log, Some(Refused), plans; }
    log := log + [Staged];
    interrupted := ArrivedBy(w, VERSION_STAGED);
    if interrupted { assert log[1] == Staged; return log, Some(NothingApplied), plans; }
    stopped := None;
  }

  /** From the staged version on: the boot, with the hook that applies or without. */
  method Boot(w: World) returns (log: seq<Event>, answer: Answer)
    requires MayBoot(w)
    ensures AppliesAccepted(w, log) && ServesAfterApply(w, log, answer)
    ensures !answer.NothingApplied? && !answer.PlanShown?
  {
    log, answer := [Prepared, Staged], Refused;
    var phase := Preparing;
    if w.bootRunsHook {
      phase := Applying;
      var planDigest := if w.planDigest.Some? then w.planDigest.value else PreparedDigest(w);
      log := log + [ApplyBegan(planDigest, PreparedAt(w)), ApplyEnded(w.applyOk)];
      assert log[2].ApplyBegan?;
      if !w.applyOk { return; }
      var interrupted := ArrivedBy(w, APPLY_FINISHED);
      if interrupted { return log, StoppedAfterApply; }
      phase := Booting;
    }
    log := log + [Served];
    assert log[|log| - 1] == Served;
    if w.bootRunsHook { assert log[2].ApplyBegan?; }
    answer := Serving;
  }

  lemma {:induction false} SafePoints(w: World)
    ensures SeenBy(w, VERSION_STAGED)
      <==> SeenAt(w, OPENED) || SeenAt(w, BINDINGS_CHECKED) || SeenAt(w, PLAN_READ) || SeenAt(w, PLAN_PREPARED) || SeenAt(w, VERSION_STAGED)
  {
  }

  /** Neither a version put in place, nor an apply, nor anything served. */
  predicate TouchesNothing(log: seq<Event>) {
    forall k | 0 <= k < |log| :: log[k] in {Prepared, PlanWritten}
  }

  method RunDeployBundle(w: World) returns (log: seq<Event>, answer: Answer, plans: map<nat, Stored>)
    ensures Deployed(w, log, answer, plans)
    // A dry-run touches nothing, nor does a deploy whose plan is blocked, wants a review it has not had, or is not on record.
    ensures w.dryRun || (w.planDigest.None? && (w.needsReview || w.blocked)) ==> TouchesNothing(log)
    ensures w.planDigest.Some? && w.planDigest.value !in w.plans ==> TouchesNothing(log)
    ensures w.bundleSha256.Some? && w.blocked && w.planDigest == Some(PreparedDigest(w)) ==> TouchesNothing(log)
    ensures !(w.filesOk && w.bundleSha256.Some? && w.bindingsOk && w.configurationOk && w.environmentOk && w.headRead && w.prepares)
      ==> TouchesNothing(log)
  {
    SafePoints(w);
    log, plans := [], w.plans;
    var stopped := ReadPlan(w);
    if stopped.Some? { return log, stopped.value, plans; }
    log, stopped, plans := StagePlan(w);
    ReachesStaging(w, log);
    if stopped.Some? { return log, stopped.value, plans; }
    log, answer := Boot(w);
  }

  /** What stands in the way of staging. */
  lemma {:induction false} ReachesStaging(w: World, log: seq<Event>)
    requires log == [Prepared] || log == [Prepared, PlanWritten] || log == [Prepared, Staged]
    requires Staged in log ==> Reaches(w, VERSION_STAGED)
    ensures Reaches(w, VERSION_STAGED) ==>
      && !w.dryRun && (w.planDigest.None? ==> !w.needsReview && !w.blocked) && (w.planDigest.Some? ==> w.planDigest.value in w.plans)
      && w.bundleSha256.Some? && !(w.blocked && w.planDigest == Some(PreparedDigest(w)))
    ensures !Reaches(w, VERSION_STAGED) ==> TouchesNothing(log)
  {
    assert log[|log| - 1] in log;
  }

  // ---- a dry-run, and a deploy under the digest it showed ---------------------------------------------------

  /** Nothing else stands in the way of an apply: no failing step, no blocker, no signal before the boot. */
  predicate Unhindered(w: World) {
    && w.filesOk && w.bindingsOk && w.configurationOk && w.environmentOk && w.headRead && w.prepares && !w.dryRun && w.stages
    && w.bundleSha256.Some? && Unblocked(w) && !ArrivedBy(w, VERSION_STAGED)
  }

  /** The same bundle within the lifetime of the plan, which still matches or was deployed before. */
  predicate FollowsReview(shown: World, w: World) {
    && shown.bundleSha256.Some? && w.bundleSha256 == shown.bundleSha256
    && PreparedAt(shown) <= w.now < PreparedAt(shown) + PLAN_LIFETIME
    && (PreparedDigest(w) == PreparedDigest(shown) || PreparedDigest(shown) in w.recordedUnder)
  }

  /** One record is in both stores. */
  predicate Stores(plans: map<nat, Stored>, earlier: map<nat, Stored>, planDigest: nat) {
    planDigest in plans && planDigest in earlier && plans[planDigest] == earlier[planDigest]
  }

  lemma {:induction false} DeployFollowsReview(shown: World, plans1: map<nat, Stored>, w: World, log: seq<Event>)
    requires StoresShown(shown, plans1, PlanShown) && AppliesAccepted(w, log)
    requires w.digest == shown.digest && shown.bundleSha256.Some? && w.planDigest == Some(PreparedDigest(shown))
    requires Stores(w.plans, plans1, PreparedDigest(shown))
    ensures (exists k :: 0 <= k < |log| && log[k].ApplyBegan?) <==> w.bootRunsHook && Unhindered(w) && FollowsReview(shown, w)
    ensures forall k | 0 <= k < |log| && log[k].ApplyBegan? :: log[k] == ApplyBegan(PreparedDigest(shown), PreparedAt(shown))
    ensures PreparedAt(w) == PreparedAt(shown)
  {
    assert Reviewed(w) == Some(PlanRecord(shown.bundleSha256.value, SortedByName(shown.revisions), PreparedAt(shown)));
  }

  /** The bindings, each under its name once, in any order, and what else a plan covers are as they were. */
  predicate Unchanged(shown: World, w: World) {
    multiset(w.revisions) == multiset(shown.revisions) && w.others == shown.others
  }

  /** For one bundle and time the recomputed digest is the same exactly when nothing changed. */
  lemma {:induction false} MatchesIffUnchanged(shown: World, w: World)
    requires Injective(w.digest) && w.digest == shown.digest && shown.bundleSha256.Some? && w.bundleSha256 == shown.bundleSha256
    requires PreparedAt(w) == PreparedAt(shown) && DistinctNames(shown.revisions) && DistinctNames(w.revisions)
    ensures PreparedDigest(w) == PreparedDigest(shown) <==> Unchanged(shown, w)
  {
    SortedSameIff(w.revisions, shown.revisions);
    assert PreparedDigest(w) == PreparedDigest(shown) <==> PreparedInput(w) == PreparedInput(shown);
  }

  /**
   * A dry-run that showed a plan, and a deploy under its digest while its record is still stored: the deploy
   * applies that plan at its time, and nothing else; and it does so exactly when the bundle is the one reviewed,
   * the plan has not expired, bindings and environment are as they were or the plan was deployed before, and
   * nothing else stands in the way.
   */
  lemma {:induction false} ReviewedPlanIsApplied(shown: World, log1: seq<Event>, answer1: Answer, plans1: map<nat, Stored>, w: World, log: seq<Event>, answer: Answer, plans: map<nat, Stored>)
    requires Deployed(shown, log1, answer1, plans1) && answer1.PlanShown? && Deployed(w, log, answer, plans)
    requires Injective(w.digest) && w.digest == shown.digest && shown.bundleSha256.Some? && w.planDigest == Some(PreparedDigest(shown))
    requires Stores(w.plans, plans1, PreparedDigest(shown)) && DistinctNames(shown.revisions) && DistinctNames(w.revisions)
    ensures forall k | 0 <= k < |log| && log[k].ApplyBegan? :: log[k] == ApplyBegan(PreparedDigest(shown), PreparedAt(shown))
    ensures (exists k :: 0 <= k < |log| && log[k].ApplyBegan?) <==>
      && w.bootRunsHook && Unhindered(w) && w.bundleSha256 == shown.bundleSha256
      && PreparedAt(shown) <= w.now < PreparedAt(shown) + PLAN_LIFETIME
      && (Unchanged(shown, w) || PreparedDigest(shown) in w.recordedUnder)
  {
    DeployFollowsReview(shown, plans1, w, log);
    if w.bundleSha256 == shown.bundleSha256 { MatchesIffUnchanged(shown, w); }
  }

  /**
   * With an injective digest, whatever has become of the stored plans: all that a deploy applies under the digest
   * of a reviewed plan is that plan, of that bundle and time, and unless it was deployed before, of the bindings
   * and the environment that were reviewed.
   */
  lemma {:induction false} OnlyTheReviewedPlanIsApplied(shown: World, w: World, log: seq<Event>, answer: Answer, plans: map<nat, Stored>, k: nat)
    requires Injective(w.digest) && w.digest == shown.digest && shown.bundleSha256.Some? && w.planDigest == Some(PreparedDigest(shown))
    requires DistinctNames(shown.revisions) && DistinctNames(w.revisions)
    requires Deployed(w, log, answer, plans) && k < |log| && log[k].ApplyBegan?
    ensures log[k] == ApplyBegan(PreparedDigest(shown), PreparedAt(shown)) && w.bundleSha256 == shown.bundleSha256
    ensures PreparedDigest(shown) in w.recordedUnder || Unchanged(shown, w)
  {
    var planDigest := PreparedDigest(shown);
    assert AcceptedUnder(w, log[k].planDigest, log[k].preparedAt);
    AcceptedRecordIsInput(PreparedInput(shown), w.plans[planDigest], w.digest);
    assert PreparedAt(w) == PreparedAt(shown);
    MatchesIffUnchanged(shown, w);
  }

  // ---- runs that a signal meets -----------------------------------------------------------------------------

  /** A first deploy that meets nothing in its way, under no plan digest and with nothing to review. */
  function Smooth(runsHook: bool, signals: set<nat>): World {
    World(true, Some(1), true, true, true, None, map[], (_: Input) => 0, 0, true, [], [], true, false, false, {},
          false, "", true, true, runsHook, true, signals)
  }

  /** A signal during the boot of a static-profile bundle: it is served all the same. */
  method ServesDespiteSignal() returns (log: seq<Event>, answer: Answer)
    ensures answer.Serving? && log == [Prepared, Staged, Served] && ArrivedBy(Smooth(false, {APPLY_FINISHED}), APPLY_FINISHED)
  {
    var w := Smooth(false, {APPLY_FINISHED});
    var plans;
    assert APPLY_FINISHED in w.signals;
    assert MayBoot(w);
    log, answer, plans := RunDeployBundle(w);
  }

  /** A signal while the version is staged: "the deploy changed nothing", with the version in place. */
  method NothingAppliedButStaged() returns (log: seq<Event>, answer: Answer)
    ensures answer.NothingApplied? && Staged in log
  {
    var w := Smooth(true, {VERSION_STAGED});
    var plans;
    assert VERSION_STAGED in w.signals;
    assert Reaches(w, VERSION_STAGED) && SeenAt(w, VERSION_STAGED);
    log, answer, plans := RunDeployBundle(w);
  }
}
