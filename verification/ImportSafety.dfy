/**
 * What holds of an import's target over every sequence of invocations, each killed anywhere.
 */
module ImportSafety {
  import opened Options
  import opened ImportState
  import opened ImportInvocations
  import opened Sequences

  /** The steps a record may take. */
  predicate MayBecome(t: Target, record: Record) {
    if t.record.None? then
      record.phase == IMPORTING && t == t.(deployment := Some(record.deploymentId), active := false, versions := false, db := Empty, released := false)
    else
      var was := t.record.value;
      && was.operation == record.operation && was.deploymentId == record.deploymentId
      && match record.phase
         case IMPORTING => was.phase == IMPORTING
         case BLOCKED => was.phase == IMPORTING
         case READY_FOR_CUTOVER =>
           && (was.phase == IMPORTING || was.phase == READY_FOR_CUTOVER || was.phase == CUTOVER)
           && HoldsReady(t, record) && TokenOf(t, record) == Some(Token(None))
         case CUTOVER =>
           && (was.phase == READY_FOR_CUTOVER || was.phase == CUTOVER)
           && HoldsReady(t, record) && TokenOf(t, record).Some? && TokenOf(t, record).value.usedBy.Some?
         case COMPLETE => was.phase == CUTOVER && t.released
  }

  /** What must hold of the target when an effect reaches it. */
  predicate Guarded(t: Target, e: Effect) {
    match e
    case CreateDeployment(_) => StartsClean(t) && t.db == Empty && !t.released
    case WriteRecord(record) => MayBecome(t, record)
    case RestoreDump =>
      InPhase(t, IMPORTING) && t.db == Empty && !t.active && !t.versions && !t.released
    case ClaimDatabase(owner) => InPhase(t, IMPORTING) && t.record.value.deploymentId == owner && t.db == Restored(None, Open) && !t.released
    case TakeFence => InPhase(t, IMPORTING) && t.db.Restored? && !t.released
    case WriteHold(_) => InPhase(t, IMPORTING) && t.db.Restored? && t.db.fence.Held? && !t.released
    case ClearDatabases =>
      (InPhase(t, BLOCKED) || InPhase(t, IMPORTING)) && MayDiscard(t, t.record.value) && !t.released
    case IssueToken =>
      (InPhase(t, IMPORTING) || AwaitsCutover(t)) && HoldsReady(t, t.record.value) && !t.released
    case ConsumeToken(_) => MayConsume(t) && !t.released
    case ReleaseFence =>
      && InPhase(t, CUTOVER) && HoldsReady(t, t.record.value) && !t.released
      && TokenOf(t, t.record.value).Some? && TokenOf(t, t.record.value).value.usedBy.Some?
    case RemoveDeployment => (InPhase(t, BLOCKED) || InPhase(t, IMPORTING)) && t.db == Empty && !t.released
    case RemoveActive => (InPhase(t, BLOCKED) || InPhase(t, IMPORTING)) && t.db == Empty && !t.released
    case RemoveRecord => (InPhase(t, BLOCKED) || InPhase(t, IMPORTING)) && t.db == Empty && !t.released
    case RemoveVersions => t.record.None? && t.db == Empty && !t.released
    case RemovePlans => t.record.None? && t.db == Empty && !t.released
  }

  /** Every effect of a list, in its turn. */
  predicate AllGuarded(t: Target, effects: seq<Effect>)
    decreases |effects|
  {
    effects == [] || (Guarded(t, effects[0]) && AllGuarded(Apply(t, effects[0]), effects[1..]))
  }

  /** The invariant of a target that imports alone have worked on. */
  predicate Inv(t: Target) {
    if t.record.None? then !t.released
    else
      var record := t.record.value;
      && !t.active && !t.versions
      && match record.phase
         case IMPORTING => !t.released && (t.db == Empty || t.db.owner == None || t.db.owner == Some(record.deploymentId))
         case BLOCKED => !t.released && (t.db == Empty || t.db.owner == None || t.db.owner == Some(record.deploymentId))
         case READY_FOR_CUTOVER => !t.released && HoldsReady(t, record) && TokenOf(t, record).Some?
         case CUTOVER =>
           if t.released then t.db == Restored(Some(record.deploymentId), Open)
           else HoldsReady(t, record) && TokenOf(t, record).Some?
         case COMPLETE => t.released && t.db == Restored(Some(record.deploymentId), Open)
  }

  lemma {:induction false} GuardedKeepsInv(t: Target, e: Effect)
    requires Inv(t) && Guarded(t, e)
    ensures Inv(Apply(t, e))
  {
  }

  // ---- every effect of every invocation is guarded ---------------------------------------------------

  lemma {:induction false} ApplyAllCons(t: Target, e: Effect, effects: seq<Effect>)
    ensures ApplyAll(t, [e] + effects) == ApplyAll(Apply(t, e), effects)
    decreases |effects|
  {
    if effects == [] {
      assert ([e] + effects)[..0] == [] && ([e] + effects)[0] == e;
    } else {
      assert ([e] + effects)[..|effects|] == [e] + effects[..|effects| - 1];
      ApplyAllCons(t, e, effects[..|effects| - 1]);
    }
  }

  lemma {:induction false} GuardedAt(t: Target, effects: seq<Effect>, k: nat)
    requires AllGuarded(t, effects) && k < |effects|
    ensures Guarded(ApplyAll(t, effects[..k]), effects[k])
    decreases k
  {
    if k > 0 {
      GuardedAt(Apply(t, effects[0]), effects[1..], k - 1);
      assert effects[..k] == [effects[0]] + effects[1..][..k - 1];
      ApplyAllCons(t, effects[0], effects[1..][..k - 1]);
    }
  }

  lemma {:induction false} PrefixKeepsInv(t: Target, effects: seq<Effect>, k: nat)
    requires Inv(t) && AllGuarded(t, effects) && k <= |effects|
    ensures Inv(ApplyAll(t, effects[..k]))
    decreases k
  {
    if k > 0 {
      PrefixKeepsInv(t, effects, k - 1);
      GuardedAt(t, effects, k - 1);
      assert effects[..k][..k - 1] == effects[..k - 1];
      GuardedKeepsInv(ApplyAll(t, effects[..k - 1]), effects[k - 1]);
    }
  }

  lemma {:induction false} GuardedCons(t: Target, e: Effect, effects: seq<Effect>)
    requires Guarded(t, e) && AllGuarded(Apply(t, e), effects)
    ensures AllGuarded(t, [e] + effects)
  {
    assert ([e] + effects)[1..] == effects;
  }

  lemma {:induction false} RemovalGuarded(t: Target)
    requires (InPhase(t, BLOCKED) || InPhase(t, IMPORTING)) && t.db == Empty && !t.released
    ensures AllGuarded(t, REMOVE_STATE)
  {
    var t1 := Apply(t, RemoveDeployment);
    var t2 := Apply(t1, RemoveActive);
    var t3 := Apply(t2, RemoveRecord);
    var t4 := Apply(t3, RemoveVersions);
    GuardedCons(t4, RemovePlans, []);
    GuardedCons(t3, RemoveVersions, [RemovePlans]);
    GuardedCons(t2, RemoveRecord, [RemoveVersions, RemovePlans]);
    GuardedCons(t1, RemoveActive, [RemoveRecord, RemoveVersions, RemovePlans]);
    GuardedCons(t, RemoveDeployment, [RemoveActive, RemoveRecord, RemoveVersions, RemovePlans]);
  }

  lemma {:induction false} DiscardGuarded(t: Target, inv: Invocation)
    requires Inv(t) && inv.Discard? && !InPhase(t, IMPORTING)
    ensures AllGuarded(t, DiscardEffects(t, inv))
  {
    if InPhase(t, BLOCKED) && MayDiscard(t, t.record.value) {
      var t1 := Apply(t, ClearDatabases);
      RemovalGuarded(t1);
      GuardedCons(t, ClearDatabases, REMOVE_STATE);
      GuardedCons(t, ClearDatabases, []);
    }
  }

  lemma {:induction false} CutoverGuarded(t: Target, inv: Invocation)
    requires Inv(t) && inv.Cutover?
    ensures AllGuarded(t, CutoverEffects(t, inv))
  {
    if MayConsume(t) && inv.tokenAccepted {
      var consume, release := ConsumeToken(inv.operation), ReleaseFence;
      var marked, complete := WriteRecord(t.record.value.(phase := CUTOVER)), WriteRecord(t.record.value.(phase := COMPLETE));
      var t1 := Apply(t, consume);
      var t2 := Apply(t1, marked);
      var t3 := Apply(t2, release);
      GuardedCons(t3, complete, []);
      GuardedCons(t2, release, [complete]);
      GuardedCons(t2, release, []);
      GuardedCons(t1, marked, [release, complete]);
      GuardedCons(t1, marked, [release]);
      GuardedCons(t1, marked, []);
      GuardedCons(t, consume, [marked, release, complete]);
      GuardedCons(t, consume, [marked, release]);
      GuardedCons(t, consume, [marked]);
      assert [consume, marked] + [] == [consume, marked];
    }
  }

  lemma {:induction false} RenewGuarded(t: Target, inv: Invocation)
    requires Inv(t) && inv.Renew?
    ensures AllGuarded(t, RenewEffects(t, inv))
  {
    if MayRenew(t) && inv.bindingHolds {
      var ready := WriteRecord(t.record.value.(phase := READY_FOR_CUTOVER));
      GuardedCons(Apply(t, IssueToken), ready, []);
      GuardedCons(t, IssueToken, [ready]);
    }
  }

  /** The target while this import runs, its database so far. */
  predicate Importing(t: Target, inv: Invocation, db: Database)
    requires inv.Import?
  {
    && t.record == Some(Record(inv.operation, inv.deploymentId, IMPORTING))
    && t.deployment == Some(inv.deploymentId) && t.db == db && !t.active && !t.versions && !t.released
  }

  lemma {:induction false} AfterRestoreGuarded(t: Target, inv: Invocation, db: Database)
    requires inv.Import? && PossibleInvocation(inv) && Importing(t, inv, db)
    requires inv.restore.RestoreOk? ==> db == Restored(Some(inv.deploymentId), Held(Some(Ready(inv.operation, None))))
    requires inv.restore.RestoreFailed? && !inv.restore.targetChanged ==> db == Empty
    ensures AllGuarded(t, AfterRestore(inv))
  {
    var blocked := WriteRecord(Record(inv.operation, inv.deploymentId, BLOCKED));
    GuardedCons(t, blocked, []);
    if inv.restore.RestoreOk? {
      var ready := WriteRecord(Record(inv.operation, inv.deploymentId, READY_FOR_CUTOVER));
      GuardedCons(Apply(t, IssueToken), ready, []);
      GuardedCons(t, IssueToken, [ready]);
      GuardedCons(Apply(t, WriteHold(Failed(inv.operation))), blocked, []);
      GuardedCons(t, WriteHold(Failed(inv.operation)), [blocked]);
      assert [] + [blocked] == [blocked];
    } else if !inv.restore.targetChanged {
      RemovalGuarded(t);
    }
  }

  /** The database behind some steps of a restore. */
  function SteppedDb(inv: Invocation, steps: nat): Database
    requires inv.Import?
  {
    if steps == 0 then Empty
    else if steps == 1 then Restored(None, Open)
    else if steps == 2 then Restored(Some(inv.deploymentId), Open)
    else if steps == 3 then Restored(Some(inv.deploymentId), Held(None))
    else Restored(Some(inv.deploymentId), Held(Some(Ready(inv.operation, None))))
  }

  /** The database a restore leaves, fenced as failed or not. */
  function RestoredDb(inv: Invocation): Database
    requires inv.Import?
  {
    var db := SteppedDb(inv, StepsDone(inv.restore));
    match inv.restore
    case RestoreOk => db
    case RestoreFailed(_, cleared, fencing, _) =>
      if cleared then Empty
      else if fencing.FencedAsFailed? then WithFence(db, Held(Some(Failed(inv.operation))))
      else if fencing.FencedUnmarked? && db.Restored? && db.fence.Open? then db.(fence := Held(None))
      else db
  }

  /** One optional effect in front of a guarded list. */
  lemma {:induction false} GuardedOption(t: Target, b: bool, e: Effect, rest: seq<Effect>)
    requires b ==> Guarded(t, e)
    requires AllGuarded(if b then Apply(t, e) else t, rest)
    ensures AllGuarded(t, When(b, e) + rest)
  {
    if b {
      GuardedCons(t, e, rest);
    } else {
      assert [] + rest == rest;
    }
  }

  lemma {:induction false} StepsGuarded(t: Target, inv: Invocation, steps: nat, next: seq<Effect>)
    requires inv.Import? && steps <= 4 && Importing(t, inv, Empty)
    requires AllGuarded(t.(db := SteppedDb(inv, steps)), next)
    ensures AllGuarded(t, RestoreSteps(inv.operation, inv.deploymentId)[..steps] + next)
    decreases steps
  {
    var effects := RestoreSteps(inv.operation, inv.deploymentId);
    if steps == 0 {
      assert effects[..0] + next == next;
    } else {
      var before := t.(db := SteppedDb(inv, steps - 1));
      GuardedCons(before, effects[steps - 1], next);
      StepsGuarded(t, inv, steps - 1, [effects[steps - 1]] + next);
      assert effects[..steps] == effects[..steps - 1] + [effects[steps - 1]];
      Associative(effects[..steps - 1], [effects[steps - 1]], next);
    }
  }

  lemma {:induction false} FailureGuarded(t: Target, inv: Invocation, next: seq<Effect>)
    requires inv.Import? && PossibleInvocation(inv) && inv.restore.RestoreFailed? && Importing(t, inv, SteppedDb(inv, inv.restore.steps))
    requires AllGuarded(t.(db := RestoredDb(inv)), next)
    ensures AllGuarded(t, AfterFailure(inv.operation, inv.restore) + next)
  {
    var cleared, fenced, marked := inv.restore.cleared, !inv.restore.fencing.NotFenced?, inv.restore.fencing.FencedAsFailed?;
    var hold := WriteHold(Failed(inv.operation));
    var t1 := if cleared then Apply(t, ClearDatabases) else t;
    var t2 := if fenced then Apply(t1, TakeFence) else t1;
    var t3 := if marked then Apply(t2, hold) else t2;
    assert t3 == t.(db := RestoredDb(inv));
    GuardedOption(t2, marked, hold, next);
    GuardedOption(t1, fenced, TakeFence, When(marked, hold) + next);
    GuardedOption(t, cleared, ClearDatabases, When(fenced, TakeFence) + (When(marked, hold) + next));
    Associative(When(fenced, TakeFence), When(marked, hold), next);
    Associative(When(cleared, ClearDatabases), When(fenced, TakeFence) + When(marked, hold), next);
  }

  lemma {:induction false} RestoringGuarded(t: Target, inv: Invocation)
    requires inv.Import? && PossibleInvocation(inv) && Importing(t, inv, Empty)
    ensures AllGuarded(t, RestoreEffects(inv.operation, inv.deploymentId, inv.restore) + AfterRestore(inv))
  {
    var n, failure := StepsDone(inv.restore), AfterFailure(inv.operation, inv.restore);
    var stepped := t.(db := SteppedDb(inv, n));
    AfterRestoreGuarded(t.(db := RestoredDb(inv)), inv, RestoredDb(inv));
    if inv.restore.RestoreOk? {
      assert failure + AfterRestore(inv) == AfterRestore(inv);
    } else {
      FailureGuarded(stepped, inv, AfterRestore(inv));
    }
    StepsGuarded(t, inv, n, failure + AfterRestore(inv));
    Associative(RestoreSteps(inv.operation, inv.deploymentId)[..n], failure, AfterRestore(inv));
  }

  lemma {:induction false} ImportGuarded(t: Target, inv: Invocation)
    requires Inv(t) && inv.Import? && PossibleInvocation(inv)
    ensures AllGuarded(t, ImportEffects(t, inv))
  {
    if StartsClean(t) && inv.checksPass && t.db == Empty && !inv.dryRun {
      var create, mark := CreateDeployment(inv.deploymentId), WriteRecord(Record(inv.operation, inv.deploymentId, IMPORTING));
      var tail := RestoreEffects(inv.operation, inv.deploymentId, inv.restore) + AfterRestore(inv);
      var t1 := Apply(t, create);
      var t2 := Apply(t1, mark);
      RestoringGuarded(t2, inv);
      GuardedCons(t2, mark, tail);
      GuardedCons(t1, mark, [mark] + tail);
      GuardedCons(t, create, [mark] + ([mark] + tail));
      assert [create] + ([mark] + ([mark] + tail)) == ImportStart(inv) + tail;
    }
  }

  lemma {:induction false} VerbGuarded(t: Target, inv: Invocation)
    requires Inv(t) && PossibleInvocation(inv) && !InPhase(t, IMPORTING)
    ensures AllGuarded(t, VerbEffects(t, inv))
  {
    match inv
    case Import(_, _, _, _, _, _, _, _) => ImportGuarded(t, inv);
    case Discard(_, _) => DiscardGuarded(t, inv);
    case Cutover(_, _, _) => CutoverGuarded(t, inv);
    case Renew(_, _) => RenewGuarded(t, inv);
  }

  lemma {:induction false} EffectsGuarded(t: Target, inv: Invocation)
    requires Inv(t) && PossibleInvocation(inv)
    ensures AllGuarded(t, Effects(t, inv))
  {
    var t' := AfterInterruption(t);
    VerbGuarded(t', inv);
    if InPhase(t, IMPORTING) {
      var mark := WriteRecord(t.record.value.(phase := BLOCKED));
      GuardedCons(t, mark, VerbEffects(t', inv));
    } else {
      assert [] + VerbEffects(t', inv) == VerbEffects(t', inv);
    }
  }

  // ---- runs ------------------------------------------------------------------------------------------

  /** An invocation and how many of its effects it survives. */
  datatype Shot = Shot(inv: Invocation, survives: nat)

  function RunAll(t: Target, shots: seq<Shot>): Target {
    if shots == [] then t
    else
      var before, last := RunAll(t, shots[..|shots| - 1]), shots[|shots| - 1];
      ApplyAll(before, Cut(Effects(before, last.inv), last.survives))
  }

  predicate PossibleRun(shots: seq<Shot>) {
    forall i | 0 <= i < |shots| :: PossibleInvocation(shots[i].inv)
  }

  lemma {:induction false} RunsKeepInv(t: Target, shots: seq<Shot>)
    requires Inv(t) && PossibleRun(shots)
    ensures Inv(RunAll(t, shots))
    decreases |shots|
  {
    if shots != [] {
      var before, last := RunAll(t, shots[..|shots| - 1]), shots[|shots| - 1];
      RunsKeepInv(t, shots[..|shots| - 1]);
      EffectsGuarded(before, last.inv);
      var effects := Effects(before, last.inv);
      PrefixKeepsInv(before, effects, |Cut(effects, last.survives)|);
      assert Cut(effects, last.survives) == effects[..|Cut(effects, last.survives)|];
    }
  }

  /**
   * Over every run from a target without an import, with a kill between any two effects, each effect
   * meets its guard: a restore only into an empty database of a target with no deployment state, a
   * discard only of a blocked import (or of one that changed nothing), a release only under a recorded
   * cutover with its used token, and none of these on a target whose fence was released before.
   */
  lemma {:induction false} EveryEffectIsGuarded(t: Target, shots: seq<Shot>, next: Invocation, k: nat)
    requires t.record.None? && !t.released && PossibleRun(shots) && PossibleInvocation(next)
    requires k < |Effects(RunAll(t, shots), next)|
    ensures var reached := RunAll(t, shots);
      Guarded(ApplyAll(reached, Effects(reached, next)[..k]), Effects(reached, next)[k])
  {
    RunsKeepInv(t, shots);
    EffectsGuarded(RunAll(t, shots), next);
    GuardedAt(RunAll(t, shots), Effects(RunAll(t, shots), next), k);
  }

  /** A target whose fence was released: only a completed or completing cutover's record, and nothing else changes. */
  lemma {:induction false} ReleasedIsInert(t: Target, inv: Invocation)
    requires Inv(t) && t.released
    ensures Effects(t, inv) == []
  {
  }

  lemma {:induction false} ReleasedStays(t: Target, shots: seq<Shot>)
    requires Inv(t) && t.released
    ensures RunAll(t, shots) == t
    decreases |shots|
  {
    if shots != [] {
      ReleasedStays(t, shots[..|shots| - 1]);
      ReleasedIsInert(t, shots[|shots| - 1].inv);
    }
  }

  /** COMPLETE is never left, by any invocation, killed anywhere or not. */
  lemma {:induction false} CompleteIsNeverLeft(start: Target, before: seq<Shot>, after: seq<Shot>)
    requires start.record.None? && !start.released && PossibleRun(before)
    requires InPhase(RunAll(start, before), COMPLETE)
    ensures RunAll(RunAll(start, before), after) == RunAll(start, before)
  {
    RunsKeepInv(start, before);
    ReleasedStays(RunAll(start, before), after);
  }

  /** A cutover killed between the release and the last mark stays CUTOVER: no invocation completes its record. */
  lemma {:induction false} KilledCutoverNeverCompletes(t: Target, shots: seq<Shot>)
    requires Inv(t) && InPhase(t, CUTOVER) && t.released
    ensures InPhase(RunAll(t, shots), CUTOVER)
  {
    ReleasedStays(t, shots);
  }

  /** A kill between creating the deployment and the first mark leaves a target no verb will touch. */
  lemma {:induction false} UnrecordedDeploymentIsStuck(t: Target, shots: seq<Shot>)
    requires t.record.None? && t.deployment.Some?
    ensures RunAll(t, shots) == t
    decreases |shots|
  {
    if shots != [] {
      UnrecordedDeploymentIsStuck(t, shots[..|shots| - 1]);
      assert Effects(t, shots[|shots| - 1].inv) == [];
    }
  }

  // ---- how an import ends ------------------------------------------------------------------------------

  lemma {:induction false} ApplyAllConcat(t: Target, a: seq<Effect>, b: seq<Effect>)
    ensures ApplyAll(t, a + b) == ApplyAll(ApplyAll(t, a), b)
    decreases |b|
  {
    if b == [] {
      assert a + b == a;
    } else {
      assert (a + b)[..|a + b| - 1] == a + b[..|b| - 1];
      ApplyAllConcat(t, a, b[..|b| - 1]);
    }
  }

  predicate Begins(t: Target, inv: Invocation) {
    inv.Import? && StartsClean(t) && inv.checksPass && t.db == Empty && !inv.dryRun
  }

  lemma {:induction false} AppliedOnce(t: Target, e: Effect)
    ensures ApplyAll(t, [e]) == Apply(t, e)
  {
    assert [e][..0] == [];
  }

  lemma {:induction false} AppliedTwice(t: Target, e: Effect, f: Effect)
    ensures ApplyAll(t, [e, f]) == Apply(Apply(t, e), f)
  {
    assert [e, f][..1] == [e];
    AppliedOnce(t, e);
  }

  /** The fence of a database behind `steps` steps of a restore. */
  function FenceBehind(operation: nat, steps: nat): Fence {
    if steps <= 2 then Open else if steps == 3 then Held(None) else Held(Some(Ready(operation, None)))
  }

  /** The database as an import leaves it that is not killed. */
  function LeftDatabase(inv: Invocation): Database
    requires inv.Import?
  {
    match inv.restore
    case RestoreOk =>
      Restored(Some(inv.deploymentId), Held(Some(
        if inv.secretsWritten && inv.tokenIssued then Ready(inv.operation, Some(Token(None)))
        else if inv.failureMarked then Failed(inv.operation) else Ready(inv.operation, None))))
    case RestoreFailed(steps, cleared, fencing, _) =>
      if cleared || steps == 0 then Empty
      else Restored(if steps == 1 then None else Some(inv.deploymentId),
        if fencing.FencedAsFailed? then Held(Some(Failed(inv.operation)))
        else if fencing.FencedUnmarked? && steps < 4 then Held(None)
        else FenceBehind(inv.operation, steps))
  }

  lemma {:induction false} StepsLeave(t: Target, operation: nat, deploymentId: nat, n: nat)
    requires t.db == Empty && n <= 4
    ensures ApplyAll(t, RestoreSteps(operation, deploymentId)[..n]) ==
      t.(db := if n == 0 then Empty else Restored(if n == 1 then None else Some(deploymentId), FenceBehind(operation, n)))
    decreases n
  {
    var steps := RestoreSteps(operation, deploymentId);
    if n > 0 {
      StepsLeave(t, operation, deploymentId, n - 1);
      assert steps[..n] == steps[..n - 1] + [steps[n - 1]];
      ApplyAllSnoc(t, steps[..n - 1], steps[n - 1]);
    }
  }

  lemma {:induction false} FailureLeaves(t: Target, inv: Invocation)
    requires inv.Import? && PossibleInvocation(inv) && inv.restore.RestoreFailed?
    requires var n := inv.restore.steps;
      t.db == if n == 0 then Empty else Restored(if n == 1 then None else Some(inv.deploymentId), FenceBehind(inv.operation, n))
    ensures ApplyAll(t, AfterFailure(inv.operation, inv.restore)) == t.(db := LeftDatabase(inv))
  {
    if inv.restore.cleared {
      assert AfterFailure(inv.operation, inv.restore) == [ClearDatabases];
      AppliedOnce(t, ClearDatabases);
    } else if inv.restore.fencing.FencedUnmarked? {
      assert AfterFailure(inv.operation, inv.restore) == [TakeFence];
      AppliedOnce(t, TakeFence);
    } else if inv.restore.fencing.FencedAsFailed? {
      assert AfterFailure(inv.operation, inv.restore) == [TakeFence, WriteHold(Failed(inv.operation))];
      AppliedTwice(t, TakeFence, WriteHold(Failed(inv.operation)));
    } else {
      assert AfterFailure(inv.operation, inv.restore) == [];
    }
  }

  /** What stands behind the restore: nothing removed yet, no hold rewritten. */
  lemma {:induction false} RestoreLeaves(t: Target, inv: Invocation)
    requires inv.Import? && PossibleInvocation(inv) && t.db == Empty
    ensures ApplyAll(t, RestoreEffects(inv.operation, inv.deploymentId, inv.restore)) ==
      t.(db := if inv.restore.RestoreOk? then Restored(Some(inv.deploymentId), Held(Some(Ready(inv.operation, None)))) else LeftDatabase(inv))
  {
    var steps := RestoreSteps(inv.operation, inv.deploymentId)[..StepsDone(inv.restore)];
    StepsLeave(t, inv.operation, inv.deploymentId, StepsDone(inv.restore));
    ApplyAllConcat(t, steps, AfterFailure(inv.operation, inv.restore));
    if inv.restore.RestoreFailed? { FailureLeaves(ApplyAll(t, steps), inv); }
  }

  lemma {:induction false} StartLeaves(t: Target, inv: Invocation)
    requires Begins(t, inv)
    ensures ApplyAll(t, ImportStart(inv)) ==
      t.(deployment := Some(inv.deploymentId), record := Some(Record(inv.operation, inv.deploymentId, IMPORTING)))
  {
    var importing := WriteRecord(Record(inv.operation, inv.deploymentId, IMPORTING));
    AppliedTwice(t, CreateDeployment(inv.deploymentId), importing);
    assert ImportStart(inv) == [CreateDeployment(inv.deploymentId), importing] + [importing];
    ApplyAllSnoc(t, [CreateDeployment(inv.deploymentId), importing], importing);
  }

  /** The phase an import ends in: ready exactly when restore, boot secrets and token succeeded. */
  function EndPhase(inv: Invocation): Phase
    requires inv.Import?
  {
    if inv.restore.RestoreOk? && inv.secretsWritten && inv.tokenIssued then READY_FOR_CUTOVER else BLOCKED
  }

  lemma {:induction false} RestLeaves(t: Target, inv: Invocation)
    requires inv.Import? && (inv.restore.RestoreFailed? ==> inv.restore.targetChanged)
    requires t.db == if inv.restore.RestoreOk? then Restored(Some(inv.deploymentId), Held(Some(Ready(inv.operation, None)))) else LeftDatabase(inv)
    ensures ApplyAll(t, AfterRestore(inv)) == t.(record := Some(Record(inv.operation, inv.deploymentId, EndPhase(inv))), db := LeftDatabase(inv))
  {
    var mark := WriteRecord(Record(inv.operation, inv.deploymentId, EndPhase(inv)));
    if EndPhase(inv) == READY_FOR_CUTOVER {
      AppliedTwice(t, IssueToken, mark);
    } else if inv.restore.RestoreOk? && inv.failureMarked {
      assert AfterRestore(inv) == [WriteHold(Failed(inv.operation)), mark];
      AppliedTwice(t, WriteHold(Failed(inv.operation)), mark);
    } else {
      assert AfterRestore(inv) == [mark];
      AppliedOnce(t, mark);
    }
  }

  /** All an import does, in its three parts. */
  lemma {:induction false} ImportParts(t: Target, inv: Invocation)
    requires Begins(t, inv)
    ensures var restored := ApplyAll(ApplyAll(t, ImportStart(inv)), RestoreEffects(inv.operation, inv.deploymentId, inv.restore));
      ApplyAll(t, Effects(t, inv)) == ApplyAll(restored, AfterRestore(inv))
  {
    var restoring := RestoreEffects(inv.operation, inv.deploymentId, inv.restore);
    assert Effects(t, inv) == [] + (ImportStart(inv) + (restoring + AfterRestore(inv)));
    assert Effects(t, inv) == ImportStart(inv) + (restoring + AfterRestore(inv));
    ApplyAllConcat(t, ImportStart(inv), restoring + AfterRestore(inv));
    ApplyAllConcat(ApplyAll(t, ImportStart(inv)), restoring, AfterRestore(inv));
  }

  /**
   * How an import ends that is not killed, exactly: with its deployment, and READY_FOR_CUTOVER behind a fence with an
   * unused token when the restore, the boot secrets and the token succeeded; else BLOCKED, the database as the failure
   * left it; and without a trace, stored plans apart, when the restore changed nothing.
   */
  lemma {:induction false} ImportOutcome(t: Target, inv: Invocation)
    requires Begins(t, inv) && PossibleInvocation(inv)
    ensures ApplyAll(t, Effects(t, inv)) ==
      if inv.restore.RestoreFailed? && !inv.restore.targetChanged then t.(plans := false)
      else t.(deployment := Some(inv.deploymentId), record := Some(Record(inv.operation, inv.deploymentId, EndPhase(inv))), db := LeftDatabase(inv))
  {
    ImportParts(t, inv);
    StartLeaves(t, inv);
    var started := ApplyAll(t, ImportStart(inv));
    RestoreLeaves(started, inv);
    var restored := ApplyAll(started, RestoreEffects(inv.operation, inv.deploymentId, inv.restore));
    if inv.restore.RestoreFailed? && !inv.restore.targetChanged {
      assert LeftDatabase(inv) == Empty;
      RemovalLeaves(restored);
    } else {
      RestLeaves(restored, inv);
    }
  }

  lemma {:induction false} RemovalLeaves(t: Target)
    ensures ApplyAll(t, REMOVE_STATE) == t.(deployment := None, active := false, record := None, versions := false, plans := false)
  {
    var t1 := Apply(t, RemoveDeployment);
    var t2 := Apply(t1, RemoveActive);
    var t3 := Apply(t2, RemoveRecord);
    var t4 := Apply(t3, RemoveVersions);
    Walk([t, t1, t2, t3, t4, Apply(t4, RemovePlans)], REMOVE_STATE);
  }

  // ---- how the other verbs end -------------------------------------------------------------------------

  /**
   * A cutover with the token of a fence that is held ready, not killed: the record says CUTOVER, or COMPLETE when the
   * release was acknowledged; the fence is open exactly when it was released, and holds the used token otherwise.
   */
  lemma {:induction false} CutoverOutcome(t: Target, operation: nat, resume: Resume)
    requires Inv(t) && MayConsume(t)
    ensures var ended, record := ApplyAll(t, Effects(t, Cutover(operation, true, resume))), t.record.value;
      ended == t.(record := Some(record.(phase := if resume.ResumeOk? then COMPLETE else CUTOVER)),
        released := !resume.ResumeRefused?,
        db := Restored(Some(record.deploymentId), if resume.ResumeRefused? then Held(Some(Ready(record.operation, Some(Token(Some(operation)))))) else Open))
  {
    var record, n := t.record.value, if resume.ResumeRefused? then 2 else if resume.ReleasedUnacknowledged? then 3 else 4;
    CutoverSteps(t, operation, resume);
    var full := FullCutover(record, operation);
    var s1 := Apply(t, full[0]);
    var s2 := Apply(s1, full[1]);
    var s3 := Apply(s2, full[2]);
    Walk([t, s1, s2, s3, Apply(s3, full[3])][..n + 1], full[..n]);
  }

  function FullCutover(record: Record, operation: nat): seq<Effect> {
    [ConsumeToken(operation), WriteRecord(record.(phase := CUTOVER)), ReleaseFence, WriteRecord(record.(phase := COMPLETE))]
  }

  lemma {:induction false} CutoverSteps(t: Target, operation: nat, resume: Resume)
    requires MayConsume(t)
    ensures Effects(t, Cutover(operation, true, resume))
      == FullCutover(t.record.value, operation)[..if resume.ResumeRefused? then 2 else if resume.ReleasedUnacknowledged? then 3 else 4]
  {
    assert Interruption(t) == [] && AfterInterruption(t) == t;
  }

  /** A renewal of a fence held ready puts a new unused token in the place of the old one, and the record back. */
  lemma {:induction false} RenewOutcome(t: Target, operation: nat)
    requires Inv(t) && MayRenew(t)
    ensures var ended, record := ApplyAll(t, Effects(t, Renew(operation, true))), t.record.value;
      ended == t.(record := Some(record.(phase := READY_FOR_CUTOVER)),
        db := Restored(Some(record.deploymentId), Held(Some(Ready(record.operation, Some(Token(None)))))))
  {
    var ready := WriteRecord(t.record.value.(phase := READY_FOR_CUTOVER));
    assert Effects(t, Renew(operation, true)) == [IssueToken, ready];
    Walk([t, Apply(t, IssueToken), Apply(Apply(t, IssueToken), ready)], [IssueToken, ready]);
  }

  /** A discard that fails keeps the record, with the databases emptied or as they were, and can be repeated. */
  lemma {:induction false} FailedDiscardOutcome(t: Target, operation: nat, cleared: bool)
    requires Inv(t) && InPhase(t, BLOCKED) && Recognised(t)
    ensures var ended := ApplyAll(t, Effects(t, Discard(operation, DiscardFailed(cleared))));
      ended == (if cleared then t.(db := Empty) else t) && Recognised(ended)
  {
    if cleared {
      assert Effects(t, Discard(operation, DiscardFailed(true))) == [ClearDatabases];
      Walk([t, Apply(t, ClearDatabases)], [ClearDatabases]);
    } else {
      assert Effects(t, Discard(operation, DiscardFailed(false))) == [];
    }
  }

  // ---- recovery --------------------------------------------------------------------------------------

  /** The discard an operator runs, with the databases reachable. */
  function Discarded(t: Target, operation: nat): Target {
    ApplyAll(t, Effects(t, Discard(operation, DiscardOk)))
  }

  /** The states an effect list goes through. */
  lemma {:induction false} Walk(states: seq<Target>, effects: seq<Effect>)
    requires |states| == |effects| + 1
    requires forall k | 0 <= k < |effects| :: states[k + 1] == Apply(states[k], effects[k])
    ensures ApplyAll(states[0], effects) == states[|effects|]
    decreases |effects|
  {
    if effects != [] {
      var n := |effects| - 1;
      Walk(states[..n + 1], effects[..n]);
    }
  }

  lemma {:induction false} RemovalApplied(t: Target)
    ensures ApplyAll(t, [ClearDatabases] + REMOVE_STATE)
      == t.(db := Empty, deployment := None, active := false, record := None, versions := false, plans := false)
  {
    ApplyAllCons(t, ClearDatabases, REMOVE_STATE);
    RemovalLeaves(Apply(t, ClearDatabases));
  }

  /** A failed or killed import has a database the discard recognises: empty, or claimed for the import. */
  predicate Recognised(t: Target) {
    t.record.Some? && (t.db == Empty || t.db.owner == Some(t.record.value.deploymentId))
  }

  /**
   * From the moment the record exists, a failed or killed import can be discarded, leaving a target a
   * new import may start on, exactly when its database is recognised: an import that dies between
   * committing the application dump and claiming the database cannot be discarded.
   */
  lemma {:induction false} FailedImportRecoversIff(t: Target, operation: nat)
    requires Inv(t) && (InPhase(t, IMPORTING) || InPhase(t, BLOCKED))
    ensures StartsClean(Discarded(t, operation)) && Discarded(t, operation).db == Empty <==> Recognised(t)
  {
    var inv := Discard(operation, DiscardOk);
    var t' := AfterInterruption(t);
    if Recognised(t) {
      RemovalApplied(t');
      if InPhase(t, IMPORTING) {
        ApplyAllCons(t, Interruption(t)[0], [ClearDatabases] + REMOVE_STATE);
        assert Effects(t, inv) == [Interruption(t)[0]] + ([ClearDatabases] + REMOVE_STATE);
      } else {
        assert Effects(t, inv) == [ClearDatabases] + REMOVE_STATE;
      }
    } else {
      assert Effects(t, inv) == Interruption(t);
      if InPhase(t, IMPORTING) {
        ApplyAllCons(t, Interruption(t)[0], []);
        assert Interruption(t) == [Interruption(t)[0]] + [];
      }
    }
  }

  /** A target with a record that a discard can work on, or one a new import may start on. */
  predicate Discardable(t: Target) {
    ((InPhase(t, BLOCKED) || InPhase(t, IMPORTING)) && Recognised(t)) || (StartsClean(t) && t.db == Empty)
  }

  const DISCARDING := [ClearDatabases] + REMOVE_STATE

  /**
   * A discard of a failed import, or of one that was killed and is marked failed first, itself killed anywhere,
   * leaves a target that a second discard clears or a new import may start on.
   */
  lemma {:induction false} KilledDiscardRecovers(t: Target, operation: nat, survives: nat)
    requires Inv(t) && (InPhase(t, BLOCKED) || InPhase(t, IMPORTING)) && Recognised(t)
    ensures Discardable(ApplyAll(t, Cut(Effects(t, Discard(operation, DiscardOk)), survives)))
  {
    var t' := AfterInterruption(t);
    var effects := Effects(t, Discard(operation, DiscardOk));
    var cut := Cut(effects, survives);
    assert cut == effects[..|cut|];
    if InPhase(t, IMPORTING) {
      assert effects == [Interruption(t)[0]] + DISCARDING;
      if |cut| > 0 {
        assert cut == [Interruption(t)[0]] + DISCARDING[..|cut| - 1];
        ApplyAllCons(t, Interruption(t)[0], DISCARDING[..|cut| - 1]);
        DiscardPrefix(t', |cut| - 1);
      }
    } else {
      assert effects == DISCARDING;
      DiscardPrefix(t, |cut|);
    }
  }

  /** The target behind the first `k` effects of a discard. */
  function Discarding(t: Target, k: nat): Target {
    t.(db := if k > 0 then Empty else t.db, deployment := if k > 1 then None else t.deployment, active := k <= 2 && t.active,
       record := if k > 3 then None else t.record, versions := k <= 4 && t.versions, plans := k <= 5 && t.plans)
  }

  lemma {:induction false} DiscardStep(t: Target, k: nat)
    requires k < 6
    ensures Apply(Discarding(t, k), DISCARDING[k]) == Discarding(t, k + 1)
  {
    assert DISCARDING == [ClearDatabases, RemoveDeployment, RemoveActive, RemoveRecord, RemoveVersions, RemovePlans];
  }

  lemma {:induction false} DiscardPrefix(t: Target, k: nat)
    requires k <= 6
    ensures ApplyAll(t, DISCARDING[..k]) == Discarding(t, k)
    decreases k
  {
    if k > 0 {
      DiscardPrefix(t, k - 1);
      DiscardStep(t, k - 1);
      assert DISCARDING[..k] == DISCARDING[..k - 1] + [DISCARDING[k - 1]];
      ApplyAllSnoc(t, DISCARDING[..k - 1], DISCARDING[k - 1]);
    }
  }

  function UndisturbedEffects(operation: nat, id: nat): seq<Effect> {
    var importing := WriteRecord(Record(operation, id, IMPORTING));
    [CreateDeployment(id), importing, importing, RestoreDump, ClaimDatabase(id), TakeFence, WriteHold(Ready(operation, None)), IssueToken,
     WriteRecord(Record(operation, id, READY_FOR_CUTOVER))]
  }

  lemma {:induction false} UndisturbedImport(t: Target, operation: nat, id: nat)
    requires StartsClean(t) && t.db == Empty && !t.released
    ensures Effects(t, Import(operation, id, false, true, RestoreOk, true, true, true)) == UndisturbedEffects(operation, id)
  {
  }

  /** An undisturbed import on a clean target, then its cutover, end COMPLETE with the fence released. */
  lemma {:induction false} ImportThenCutoverCompletes(t: Target, operation: nat, cutover: nat, id: nat)
    requires StartsClean(t) && t.db == Empty && !t.released
    ensures var ready := ApplyAll(t, Effects(t, Import(operation, id, false, true, RestoreOk, true, true, true)));
      && ready == t.(deployment := Some(id), record := Some(Record(operation, id, READY_FOR_CUTOVER)),
                     db := Restored(Some(id), Held(Some(Ready(operation, Some(Token(None)))))))
      && ApplyAll(ready, Effects(ready, Cutover(cutover, true, ResumeOk)))
           == ready.(record := Some(Record(operation, id, COMPLETE)), db := Restored(Some(id), Open), released := true)
  {
    var importing, readyMark := WriteRecord(Record(operation, id, IMPORTING)), WriteRecord(Record(operation, id, READY_FOR_CUTOVER));
    var claim, hold := ClaimDatabase(id), WriteHold(Ready(operation, None));
    var effects := UndisturbedEffects(operation, id);
    UndisturbedImport(t, operation, id);
    var s1 := Apply(t, CreateDeployment(id));
    var s2 := Apply(s1, importing);
    var s3 := Apply(s2, importing);
    var s4 := Apply(s3, RestoreDump);
    var s5 := Apply(s4, claim);
    var s6 := Apply(s5, TakeFence);
    var s7 := Apply(s6, hold);
    var s8 := Apply(s7, IssueToken);
    var ready := Apply(s8, readyMark);
    Walk([t, s1, s2, s3, s4, s5, s6, s7, s8, ready], effects);
    CutoverCompletes(ready, operation, cutover, id);
  }

  lemma {:induction false} CutoverCompletes(ready: Target, operation: nat, cutover: nat, id: nat)
    requires ready.record == Some(Record(operation, id, READY_FOR_CUTOVER))
    requires ready.db == Restored(Some(id), Held(Some(Ready(operation, Some(Token(None))))))
    ensures ApplyAll(ready, Effects(ready, Cutover(cutover, true, ResumeOk)))
      == ready.(record := Some(Record(operation, id, COMPLETE)), db := Restored(Some(id), Open), released := true)
  {
    var consume, marked, complete := ConsumeToken(cutover), WriteRecord(Record(operation, id, CUTOVER)), WriteRecord(Record(operation, id, COMPLETE));
    var ending := [consume, marked, ReleaseFence, complete];
    assert Effects(ready, Cutover(cutover, true, ResumeOk)) == ending;
    var s1 := Apply(ready, consume);
    var s2 := Apply(s1, marked);
    var s3 := Apply(s2, ReleaseFence);
    Walk([ready, s1, s2, s3, Apply(s3, complete)], ending);
  }

  /** A cutover killed before the release: a renewed token cuts the target over. */
  lemma {:induction false} InterruptedCutoverRecovers(t: Target, renewal: nat, cutover: nat)
    requires Inv(t) && AwaitsCutover(t) && !t.released
    ensures var renewed := ApplyAll(t, Effects(t, Renew(renewal, true)));
      var done := ApplyAll(renewed, Effects(renewed, Cutover(cutover, true, ResumeOk)));
      InPhase(done, COMPLETE) && done.released && done.record.value.operation == t.record.value.operation
  {
    var record := t.record.value.(phase := READY_FOR_CUTOVER);
    var effects := [IssueToken, WriteRecord(record)];
    assert Effects(t, Renew(renewal, true)) == effects;
    var s1 := Apply(t, IssueToken);
    Walk([t, s1, Apply(s1, WriteRecord(record))], effects);
    CutoverCompletes(Apply(s1, WriteRecord(record)), record.operation, cutover, record.deploymentId);
  }

  // ---- runs that get stuck ----------------------------------------------------------------------------------

  const NEW_TARGET := Target(None, false, false, false, None, Empty, false)

  function SmoothImport(operation: nat, id: nat): Invocation { Import(operation, id, false, true, RestoreOk, true, true, true) }

  lemma {:induction false} OneShot(t: Target, inv: Invocation, n: nat)
    requires n < |Effects(t, inv)|
    ensures RunAll(t, [Shot(inv, n)]) == ApplyAll(t, Effects(t, inv)[..n])
  {
    assert [Shot(inv, n)][..0] == [];
  }

  /** A failed or interrupted import whose database was never claimed. */
  predicate Unclaimed(t: Target) {
    (InPhase(t, IMPORTING) || InPhase(t, BLOCKED)) && t.db.Restored? && t.db.owner.None?
  }

  /** No invocation, killed anywhere or not, gets such a target out of that state. */
  lemma {:induction false} UnclaimedIsStuck(t: Target, shots: seq<Shot>)
    requires Unclaimed(t)
    ensures Unclaimed(RunAll(t, shots)) && RunAll(t, shots).db == t.db
    decreases |shots|
  {
    if shots != [] {
      var last := shots[|shots| - 1];
      UnclaimedIsStuck(t, shots[..|shots| - 1]);
      UnclaimedInvocation(RunAll(t, shots[..|shots| - 1]), last.inv, last.survives);
    }
  }

  lemma {:induction false} UnclaimedInvocation(t: Target, inv: Invocation, survives: nat)
    requires Unclaimed(t)
    ensures var t' := ApplyAll(t, Cut(Effects(t, inv), survives)); Unclaimed(t') && t'.db == t.db
  {
    assert VerbEffects(AfterInterruption(t), inv) == [];
    assert Effects(t, inv) == Interruption(t) + [];
    if InPhase(t, IMPORTING) && survives > 0 {
      assert Cut(Effects(t, inv), survives) == [] + [Interruption(t)[0]];
      ApplyAllSnoc(t, [], Interruption(t)[0]);
    } else {
      assert Cut(Effects(t, inv), survives) == [];
    }
  }

  /** An import killed right behind the dump: whatever is run then, the target keeps the unclaimed database. */
  lemma {:induction false} KilledBehindTheDump(operation: nat, id: nat, shots: seq<Shot>)
    ensures var t := RunAll(NEW_TARGET, [Shot(SmoothImport(operation, id), 4)]);
      t.db == Restored(None, Open) && Unclaimed(t) && Unclaimed(RunAll(t, shots)) && RunAll(t, shots).db == Restored(None, Open)
  {
    var mark := WriteRecord(Record(operation, id, IMPORTING));
    UndisturbedImport(NEW_TARGET, operation, id);
    OneShot(NEW_TARGET, SmoothImport(operation, id), 4);
    var s1 := Apply(NEW_TARGET, CreateDeployment(id));
    var s2 := Apply(s1, mark);
    var s3 := Apply(s2, mark);
    Walk([NEW_TARGET, s1, s2, s3, Apply(s3, RestoreDump)], [CreateDeployment(id), mark, mark, RestoreDump]);
    assert UndisturbedEffects(operation, id)[..4] == [CreateDeployment(id), mark, mark, RestoreDump];
    UnclaimedIsStuck(RunAll(NEW_TARGET, [Shot(SmoothImport(operation, id), 4)]), shots);
  }

  /** An import killed between creating the deployment and its first mark: no invocation ever changes the target again. */
  lemma {:induction false} KilledBeforeTheMark(operation: nat, id: nat, shots: seq<Shot>)
    ensures var t := RunAll(NEW_TARGET, [Shot(SmoothImport(operation, id), 1)]);
      t == NEW_TARGET.(deployment := Some(id)) && RunAll(t, shots) == t
  {
    UndisturbedImport(NEW_TARGET, operation, id);
    OneShot(NEW_TARGET, SmoothImport(operation, id), 1);
    Walk([NEW_TARGET, Apply(NEW_TARGET, CreateDeployment(id))], [CreateDeployment(id)]);
    assert UndisturbedEffects(operation, id)[..1] == [CreateDeployment(id)];
    UnrecordedDeploymentIsStuck(RunAll(NEW_TARGET, [Shot(SmoothImport(operation, id), 1)]), shots);
  }
}
