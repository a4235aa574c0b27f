/**
 * The invocations of `rayspec import`: what each does to its target, effect by effect. A kill cuts the
 * effects of an invocation short; an unexpected throw ends it in the same way.
 */
module ImportInvocations {
  import opened Options
  import opened ImportState
  import opened Sequences

  /** How far a failed restore's fencing of the changed target came. */
  datatype Fencing = NotFenced | FencedUnmarked | FencedAsFailed

  /**
   * How `restoreImport` ends. A failure says how many of the restore's steps were done, whether the database was
   * emptied again, how far the fencing of the changed target came, and what it reports as changed.
   */
  datatype Restore =
    | RestoreOk
    | RestoreFailed(steps: nat, cleared: bool, fencing: Fencing, targetChanged: bool)

  /** Dump and claim, the fence, and the hold that the cutover will need. */
  function RestoreSteps(operation: nat, deploymentId: nat): seq<Effect> {
    [RestoreDump, ClaimDatabase(deploymentId), TakeFence, WriteHold(Ready(operation, None))]
  }

  /**
   * The contract of `restoreImport` on failure: it may fail behind each step, it empties the database only once
   * that is claimed and before it is fenced, it fences only what it left restored, and what it left changed it says.
   */
  predicate Possible(restore: Restore) {
    restore.RestoreFailed? ==>
      && restore.steps <= 4
      && (restore.cleared ==> restore.steps == 2)
      && (!restore.fencing.NotFenced? ==> restore.steps > 0 && !restore.cleared)
      && (restore.steps > 0 && !restore.cleared ==> restore.targetChanged)
  }

  datatype Resume = ResumeRefused | ReleasedUnacknowledged | ResumeOk

  datatype Discarding = Unreadable | DiscardFailed(cleared: bool) | DiscardOk

  /** A verb, the operation id of this invocation, and what the world answers it. */
  datatype Invocation =
    | Import(operation: nat, deploymentId: nat, dryRun: bool, checksPass: bool, restore: Restore, secretsWritten: bool, tokenIssued: bool, failureMarked: bool)
    | Discard(operation: nat, outcome: Discarding)
    | Cutover(operation: nat, tokenAccepted: bool, resume: Resume)
    | Renew(operation: nat, bindingHolds: bool)

  predicate PossibleInvocation(inv: Invocation) { inv.Import? ==> Possible(inv.restore) }

  const REMOVE_STATE := [RemoveDeployment, RemoveActive, RemoveRecord, RemoveVersions, RemovePlans]

  /** An import found still running was killed: its record says so before anything else happens. */
  function Interruption(t: Target): seq<Effect> {
    if InPhase(t, IMPORTING) then [WriteRecord(t.record.value.(phase := BLOCKED))] else []
  }

  function AfterInterruption(t: Target): Target {
    if InPhase(t, IMPORTING) then t.(record := Some(t.record.value.(phase := BLOCKED))) else t
  }

  /** What a restore does: its steps, all or as many as it got to, and then what a failure does. */
  function RestoreEffects(operation: nat, deploymentId: nat, restore: Restore): seq<Effect> {
    RestoreSteps(operation, deploymentId)[..StepsDone(restore)] + AfterFailure(operation, restore)
  }

  function StepsDone(restore: Restore): (n: nat)
    ensures n <= 4
  {
    if restore.RestoreOk? || restore.steps > 4 then 4 else restore.steps
  }

  function AfterFailure(operation: nat, restore: Restore): seq<Effect> {
    match restore
    case RestoreOk => []
    case RestoreFailed(_, cleared, fencing, _) =>
      When(cleared, ClearDatabases) + (When(!fencing.NotFenced?, TakeFence) + When(fencing.FencedAsFailed?, WriteHold(Failed(operation))))
  }

  function When(b: bool, e: Effect): seq<Effect> { if b then [e] else [] }

  /** The import was restored and verified but cannot be made ready. */
  function BlockedEffects(inv: Invocation): seq<Effect>
    requires inv.Import?
  {
    (if inv.failureMarked then [WriteHold(Failed(inv.operation))] else [])
      + [WriteRecord(Record(inv.operation, inv.deploymentId, BLOCKED))]
  }

  function AfterRestore(inv: Invocation): seq<Effect>
    requires inv.Import?
  {
    match inv.restore
    case RestoreFailed(_, _, _, targetChanged) =>
      if targetChanged then [WriteRecord(Record(inv.operation, inv.deploymentId, BLOCKED))] else REMOVE_STATE
    case RestoreOk =>
      if inv.secretsWritten && inv.tokenIssued
      then [IssueToken, WriteRecord(Record(inv.operation, inv.deploymentId, READY_FOR_CUTOVER))]
      else BlockedEffects(inv)
  }

  /** The deployment and the record, which is written again when the databases' part begins. */
  function ImportStart(inv: Invocation): seq<Effect>
    requires inv.Import?
  {
    var importing := WriteRecord(Record(inv.operation, inv.deploymentId, IMPORTING));
    [CreateDeployment(inv.deploymentId), importing, importing]
  }

  function ImportEffects(t: Target, inv: Invocation): seq<Effect>
    requires inv.Import?
  {
    if !StartsClean(t) || !inv.checksPass || t.db != Empty || inv.dryRun then []
    else
      ImportStart(inv) + (RestoreEffects(inv.operation, inv.deploymentId, inv.restore) + AfterRestore(inv))
  }

  /** The contract of `discardImportTarget`: only the database of this import, or one without relations. */
  predicate MayDiscard(t: Target, record: Record) {
    t.db == Empty || t.db.owner == Some(record.deploymentId)
  }

  function DiscardEffects(t: Target, inv: Invocation): seq<Effect>
    requires inv.Discard?
  {
    if t.record.None? || (t.record.value.phase != BLOCKED && t.record.value.phase != IMPORTING) then []
    else if !MayDiscard(t, t.record.value) then []
    else match inv.outcome
      case Unreadable => []
      case DiscardFailed(cleared) => if cleared then [ClearDatabases] else []
      case DiscardOk => [ClearDatabases] + REMOVE_STATE
  }

  predicate AwaitsCutover(t: Target) {
    t.record.Some? && (t.record.value.phase == READY_FOR_CUTOVER || t.record.value.phase == CUTOVER)
  }

  /** The contract of `consumeCutoverToken`: an unused token of a fence this import holds ready. */
  predicate MayConsume(t: Target) {
    AwaitsCutover(t) && HoldsReady(t, t.record.value) && TokenOf(t, t.record.value) == Some(Token(None))
  }

  function CutoverEffects(t: Target, inv: Invocation): seq<Effect>
    requires inv.Cutover?
  {
    if !MayConsume(t) || !inv.tokenAccepted then []
    else
      [ConsumeToken(inv.operation), WriteRecord(t.record.value.(phase := CUTOVER))]
        + match inv.resume
          case ResumeRefused => []
          case ReleasedUnacknowledged => [ReleaseFence]
          case ResumeOk => [ReleaseFence, WriteRecord(t.record.value.(phase := COMPLETE))]
  }

  /** The contract of `renewCutoverToken`: a fence this import holds ready, with an earlier token. */
  predicate MayRenew(t: Target) {
    AwaitsCutover(t) && HoldsReady(t, t.record.value) && TokenOf(t, t.record.value).Some?
  }

  function RenewEffects(t: Target, inv: Invocation): seq<Effect>
    requires inv.Renew?
  {
    if !MayRenew(t) || !inv.bindingHolds then []
    else [IssueToken, WriteRecord(t.record.value.(phase := READY_FOR_CUTOVER))]
  }

  function VerbEffects(t: Target, inv: Invocation): seq<Effect> {
    match inv
    case Import(_, _, _, _, _, _, _, _) => ImportEffects(t, inv)
    case Discard(_, _) => DiscardEffects(t, inv)
    case Cutover(_, _, _) => CutoverEffects(t, inv)
    case Renew(_, _) => RenewEffects(t, inv)
  }

  /** Everything one invocation does when it is not killed. */
  function Effects(t: Target, inv: Invocation): seq<Effect> {
    Interruption(t) + VerbEffects(AfterInterruption(t), inv)
  }

  /** The first `n` effects, or all of them when there are fewer. */
  function Cut(effects: seq<Effect>, n: nat): seq<Effect> {
    if n < |effects| then effects[..n] else effects
  }

  lemma {:induction false} RefusedByWhatWasGiven(t: Target, inv: Invocation)
    ensures inv.Import? && (inv.dryRun || !inv.checksPass) ==> VerbEffects(AfterInterruption(t), inv) == []
    ensures inv.Cutover? && !inv.tokenAccepted ==> VerbEffects(AfterInterruption(t), inv) == []
    ensures inv.Renew? && !inv.bindingHolds ==> VerbEffects(AfterInterruption(t), inv) == []
    ensures inv.Discard? && inv.outcome.Unreadable? ==> VerbEffects(AfterInterruption(t), inv) == []
  {
  }

  /** The interruption's mark, or a kill before it. */
  lemma {:induction false} NothingButTheMark(t: Target, effects: seq<Effect>, n: nat)
    requires effects == Interruption(t)
    ensures var t' := ApplyAll(t, Cut(effects, n)); t' == t || t' == AfterInterruption(t)
  {
    if effects != [] && n > 0 {
      ApplyAllSnoc(t, [], effects[0]);
      assert Cut(effects, n) == [] + [effects[0]];
    } else {
      assert Cut(effects, n) == [];
    }
  }

  /**
   * A target as it is on disk, worked on by one invocation that survives `left` more effects. The ghost
   * fields say where the invocation started, what it was going to do, and how much of that is done.
   */
  class Host {
    var target: Target
    var left: nat
    ghost var origin: Target
    ghost var survives: nat
    ghost var plan: seq<Effect>
    ghost var performed: seq<Effect>
    ghost var rest: seq<Effect>

    ghost predicate Valid()
      reads this
    {
      && plan == performed + rest
      && target == ApplyAll(origin, performed)
      && left + |performed| == survives
    }

    /** The invocation is over: killed after `survives` effects, or all of them done. */
    ghost predicate Over()
      reads this
    {
      Valid() && performed == Cut(plan, survives)
    }

    constructor (initial: Target, survives: nat)
      ensures target == initial && left == survives
    {
      target, left := initial, survives;
    }

    /** One effect, unless the process is killed first. */
    method Do(e: Effect) returns (alive: bool)
      requires Valid() && rest != [] && rest[0] == e
      modifies this
      ensures plan == old(plan) && origin == old(origin) && survives == old(survives)
      ensures alive ==> Valid() && rest == old(rest)[1..] && target == Apply(old(target), e)
      ensures !alive ==> Over()
    {
      if left == 0 { return false; }
      ApplyAllSnoc(origin, performed, e);
      target := Apply(target, e);
      left := left - 1;
      performed := performed + [e];
      rest := rest[1..];
      assert plan == performed + rest;
      return true;
    }

    /** Remove the deployment state file by file: the last thing an invocation does. */
    method RemoveDeploymentState()
      requires Valid() && rest == REMOVE_STATE
      modifies this
      ensures plan == old(plan) && origin == old(origin) && survives == old(survives) && Over()
    {
      for i := 0 to |REMOVE_STATE|
        invariant Valid() && rest == REMOVE_STATE[i..]
        invariant plan == old(plan) && origin == old(origin) && survives == old(survives)
      {
        var alive := Do(REMOVE_STATE[i]);
        if !alive { return; }
        assert REMOVE_STATE[i..][1..] == REMOVE_STATE[i + 1..];
      }
    }

    /** Mark the import's phase. */
    method Mark(operation: nat, deploymentId: nat, phase: Phase) returns (alive: bool)
      requires Valid() && rest != [] && rest[0] == WriteRecord(Record(operation, deploymentId, phase))
      modifies this
      ensures plan == old(plan) && origin == old(origin) && survives == old(survives)
      ensures alive ==> Valid() && rest == old(rest)[1..] && target == Apply(old(target), old(rest)[0])
      ensures !alive ==> Over()
    {
      alive := Do(WriteRecord(Record(operation, deploymentId, phase)));
    }

    /** An effect that happens only in some outcomes. */
    method DoWhen(b: bool, e: Effect, ghost next: seq<Effect>) returns (alive: bool)
      requires Valid() && rest == When(b, e) + next
      modifies this
      ensures plan == old(plan) && origin == old(origin) && survives == old(survives)
      ensures alive ==> Valid() && rest == next
      ensures !alive ==> Over()
    {
      if b {
        alive := Do(e);
      } else {
        assert rest == next;
        alive := true;
      }
    }

    /** `restoreImport`, by its contract. */
    method RestoreImport(operation: nat, deploymentId: nat, restore: Restore, ghost then_: seq<Effect>) returns (alive: bool)
      requires Valid() && rest == RestoreEffects(operation, deploymentId, restore) + then_
      modifies this
      ensures plan == old(plan) && origin == old(origin) && survives == old(survives)
      ensures alive ==> Valid() && rest == then_
      ensures !alive ==> Over()
    {
      ghost var steps, failure := RestoreSteps(operation, deploymentId), AfterFailure(operation, restore);
      Associative(steps[..StepsDone(restore)], failure, then_);
      alive := Restore(operation, deploymentId, StepsDone(restore), failure + then_);
      if !alive { return; }
      if restore.RestoreFailed? {
        alive := FailRestore(operation, restore, then_);
      } else {
        assert rest == then_;
      }
    }

    /** The restore's steps in order, up to the one behind which it fails. */
    method Restore(operation: nat, deploymentId: nat, steps: nat, ghost next: seq<Effect>) returns (alive: bool)
      requires steps <= 4 && Valid() && rest == RestoreSteps(operation, deploymentId)[..steps] + next
      modifies this
      ensures plan == old(plan) && origin == old(origin) && survives == old(survives)
      ensures alive ==> Valid() && rest == next
      ensures !alive ==> Over()
    {
      var effects := RestoreSteps(operation, deploymentId);
      for i := 0 to steps
        invariant Valid() && rest == effects[i..steps] + next
        invariant plan == old(plan) && origin == old(origin) && survives == old(survives)
      {
        assert rest[0] == effects[i];
        alive := Do(effects[i]);
        if !alive { return; }
        assert rest == effects[i + 1..steps] + next;
      }
      assert rest == next;
      alive := true;
    }

    /** A restore that failed: emptied again, or fenced and marked failed where that can be done. */
    method FailRestore(operation: nat, restore: Restore, ghost then_: seq<Effect>) returns (alive: bool)
      requires restore.RestoreFailed? && Valid() && rest == AfterFailure(operation, restore) + then_
      modifies this
      ensures plan == old(plan) && origin == old(origin) && survives == old(survives)
      ensures alive ==> Valid() && rest == then_
      ensures !alive ==> Over()
    {
      var fenced, marked := !restore.fencing.NotFenced?, restore.fencing.FencedAsFailed?;
      ghost var clearing, fencing, marking := When(restore.cleared, ClearDatabases), When(fenced, TakeFence), When(marked, WriteHold(Failed(operation)));
      Associative(clearing, fencing + marking, then_);
      Associative(fencing, marking, then_);
      alive := DoWhen(restore.cleared, ClearDatabases, fencing + (marking + then_));
      if !alive { return; }
      alive := DoWhen(fenced, TakeFence, marking + then_);
      if !alive { return; }
      alive := DoWhen(marked, WriteHold(Failed(operation)), then_);
    }

    /** What follows the restore: marked failed, emptied again, or made ready for the cutover. */
    method FinishImport(inv: Invocation)
      requires inv.Import? && Valid() && rest == AfterRestore(inv)
      modifies this
      ensures plan == old(plan) && origin == old(origin) && survives == old(survives) && Over()
    {
      var alive: bool;
      if inv.restore.RestoreFailed? {
        if inv.restore.targetChanged {
          alive := Mark(inv.operation, inv.deploymentId, BLOCKED);
        } else {
          RemoveDeploymentState();
        }
        return;
      }
      if !inv.secretsWritten || !inv.tokenIssued {
        if inv.failureMarked {
          alive := Do(WriteHold(Failed(inv.operation)));
          if !alive { return; }
        }
        alive := Mark(inv.operation, inv.deploymentId, BLOCKED);
        return;
      }
      alive := Do(IssueToken);
      if !alive { return; }
      alive := Mark(inv.operation, inv.deploymentId, READY_FOR_CUTOVER);
    }

    /** The import itself, once the target was found clean and every check passed. */
    method RunImport(inv: Invocation)
      requires inv.Import? && Valid() && rest == ImportEffects(target, inv)
      modifies this
      ensures plan == old(plan) && origin == old(origin) && survives == old(survives) && Over()
    {
      if !StartsClean(target) || !inv.checksPass || target.db != Empty || inv.dryRun { return; }
      var alive := Do(CreateDeployment(inv.deploymentId));
      if !alive { return; }
      alive := Mark(inv.operation, inv.deploymentId, IMPORTING);
      if !alive { return; }
      alive := Mark(inv.operation, inv.deploymentId, IMPORTING);
      if !alive { return; }
      assert rest == RestoreEffects(inv.operation, inv.deploymentId, inv.restore) + AfterRestore(inv);
      alive := RestoreImport(inv.operation, inv.deploymentId, inv.restore, AfterRestore(inv));
      if !alive { return; }
      FinishImport(inv);
    }

    /** `--discard-failed`. */
    method RunDiscard(inv: Invocation)
      requires inv.Discard? && Valid() && rest == DiscardEffects(target, inv)
      modifies this
      ensures plan == old(plan) && origin == old(origin) && survives == old(survives) && Over()
    {
      if target.record.None? { return; }
      var record := target.record.value;
      if record.phase != BLOCKED && record.phase != IMPORTING { return; }
      if !MayDiscard(target, record) { return; }
      match inv.outcome
      case Unreadable =>
      case DiscardFailed(cleared) =>
        if cleared { var _ := Do(ClearDatabases); }
      case DiscardOk =>
        var alive := Do(ClearDatabases);
        if !alive { return; }
        RemoveDeploymentState();
    }

    /** `--cutover-token`. */
    method RunCutover(inv: Invocation)
      requires inv.Cutover? && Valid() && rest == CutoverEffects(target, inv)
      modifies this
      ensures plan == old(plan) && origin == old(origin) && survives == old(survives) && Over()
    {
      if !AwaitsCutover(target) { return; }
      var record := target.record.value;
      if !MayConsume(target) || !inv.tokenAccepted { return; }
      var alive := Do(ConsumeToken(inv.operation));
      if !alive { return; }
      alive := Mark(record.operation, record.deploymentId, CUTOVER);
      if !alive || inv.resume.ResumeRefused? { return; }
      alive := Do(ReleaseFence);
      if !alive || inv.resume.ReleasedUnacknowledged? { return; }
      alive := Mark(record.operation, record.deploymentId, COMPLETE);
    }

    /** `--renew-cutover-token`. */
    method RunRenew(inv: Invocation)
      requires inv.Renew? && Valid() && rest == RenewEffects(target, inv)
      modifies this
      ensures plan == old(plan) && origin == old(origin) && survives == old(survives) && Over()
    {
      if !AwaitsCutover(target) { return; }
      var record := target.record.value;
      if !MayRenew(target) || !inv.bindingHolds { return; }
      var alive := Do(IssueToken);
      if !alive { return; }
      alive := Mark(record.operation, record.deploymentId, READY_FOR_CUTOVER);
    }

    /** What an interrupted import left is marked first, then the verb runs. */
    method Perform(inv: Invocation)
      modifies this
      ensures target == ApplyAll(old(target), Cut(Effects(old(target), inv), old(left)))
    {
      origin, survives, performed := target, left, [];
      plan := Effects(target, inv);
      rest := plan;
      if target.record.Some? && target.record.value.phase == IMPORTING {
        var record := target.record.value;
        var alive := Mark(record.operation, record.deploymentId, BLOCKED);
        if !alive { return; }
      }
      assert rest == VerbEffects(target, inv);
      match inv
      case Import(_, _, _, _, _, _, _, _) => RunImport(inv);
      case Discard(_, _) => RunDiscard(inv);
      case Cutover(_, _, _) => RunCutover(inv);
      case Renew(_, _) => RunRenew(inv);
    }

    /** One invocation. What was only asked for, or refused by what the command was given, leaves an interruption's mark at most. */
    method Run(inv: Invocation)
      modifies this
      ensures target == ApplyAll(old(target), Cut(Effects(old(target), inv), old(left)))
      ensures inv.Import? && (inv.dryRun || !inv.checksPass) ==> target == old(target) || target == AfterInterruption(old(target))
      ensures inv.Cutover? && !inv.tokenAccepted ==> target == old(target) || target == AfterInterruption(old(target))
      ensures inv.Renew? && !inv.bindingHolds ==> target == old(target) || target == AfterInterruption(old(target))
      ensures inv.Discard? && inv.outcome.Unreadable? ==> target == old(target) || target == AfterInterruption(old(target))
    {
      ghost var t, n := target, left;
      Perform(inv);
      RefusedByWhatWasGiven(t, inv);
      if VerbEffects(AfterInterruption(t), inv) == [] { NothingButTheMark(t, Effects(t, inv), n); }
    }
  }
}
