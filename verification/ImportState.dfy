/**
 * The target of an import as it survives between invocations: the state directory, the databases and the
 * fence kept in them, and the effects through which `rayspec import` changes it.
 */
module ImportState {
  import opened Options

  datatype Phase = IMPORTING | READY_FOR_CUTOVER | CUTOVER | COMPLETE | BLOCKED

  /** `import.json`. */
  datatype Record = Record(operation: nat, deploymentId: nat, phase: Phase)

  /** A cutover token: the operation that used it, if one did. */
  datatype Token = Token(usedBy: Option<nat>)

  /** What an import writes into the fence it takes. */
  datatype Hold = Ready(operation: nat, token: Option<Token>) | Failed(operation: nat)

  datatype Fence = Open | Held(hold: Option<Hold>)

  /** The application database: empty, or restored, with the deployment it records and its fence. */
  datatype Database = Empty | Restored(owner: Option<nat>, fence: Fence)

  /**
   * `deployment`, `active`, `versions` and `plans` say what the state directory holds beside the record;
   * `released` whether a cutover released the target's fence.
   */
  datatype Target = Target(
    deployment: Option<nat>, active: bool, versions: bool, plans: bool,
    record: Option<Record>, db: Database, released: bool)

  datatype Effect =
    | CreateDeployment(id: nat)
    | WriteRecord(record: Record)
    | RestoreDump
    | ClaimDatabase(owner: nat)
    | TakeFence
    | WriteHold(hold: Hold)
    | ClearDatabases
    | IssueToken
    | ConsumeToken(user: nat)
    | ReleaseFence
    | RemoveDeployment | RemoveActive | RemoveRecord | RemoveVersions | RemovePlans

  /** The fence of a restored database replaced; an empty database has none. */
  function WithFence(db: Database, fence: Fence): Database {
    if db.Restored? then db.(fence := fence) else db
  }

  function WithToken(db: Database, token: Token): Database {
    if db.Restored? && db.fence.Held? && db.fence.hold.Some? && db.fence.hold.value.Ready?
    then db.(fence := Held(Some(db.fence.hold.value.(token := Some(token)))))
    else db
  }

  function Apply(t: Target, e: Effect): Target {
    match e
    case CreateDeployment(id) => if t.deployment.Some? then t else t.(deployment := Some(id))
    case WriteRecord(record) => t.(record := Some(record))
    case RestoreDump => t.(db := Restored(None, Open))
    case ClaimDatabase(owner) => if t.db.Restored? then t.(db := t.db.(owner := Some(owner))) else t
    case TakeFence => if t.db.Restored? && t.db.fence.Open? then t.(db := WithFence(t.db, Held(None))) else t
    case WriteHold(hold) =>
      if t.db.Restored? && t.db.fence.Held? then t.(db := WithFence(t.db, Held(Some(hold)))) else t
    case ClearDatabases => t.(db := Empty)
    case IssueToken => t.(db := WithToken(t.db, Token(None)))
    case ConsumeToken(user) => t.(db := WithToken(t.db, Token(Some(user))))
    case ReleaseFence => t.(db := WithFence(t.db, Open), released := true)
    case RemoveDeployment => t.(deployment := None)
    case RemoveActive => t.(active := false)
    case RemoveRecord => t.(record := None)
    case RemoveVersions => t.(versions := false)
    case RemovePlans => t.(plans := false)
  }

  function ApplyAll(t: Target, effects: seq<Effect>): Target {
    if effects == [] then t else Apply(ApplyAll(t, effects[..|effects| - 1]), effects[|effects| - 1])
  }

  /** The import's hold on the fence, ready for its cutover. */
  predicate HoldsReady(t: Target, record: Record) {
    && t.db.Restored? && t.db.owner == Some(record.deploymentId)
    && t.db.fence.Held? && t.db.fence.hold.Some? && t.db.fence.hold.value.Ready?
    && t.db.fence.hold.value.operation == record.operation
  }

  function TokenOf(t: Target, record: Record): Option<Token>
    requires HoldsReady(t, record)
  {
    t.db.fence.hold.value.token
  }

  predicate InPhase(t: Target, phase: Phase) { t.record.Some? && t.record.value.phase == phase }

  /** No deployment state, plans excepted: what an import may restore into. */
  predicate StartsClean(t: Target) {
    t.deployment.None? && !t.active && t.record.None? && !t.versions
  }

  lemma {:induction false} ApplyAllSnoc(t: Target, effects: seq<Effect>, e: Effect)
    ensures ApplyAll(t, effects + [e]) == Apply(ApplyAll(t, effects), e)
  {
    assert (effects + [e])[..|effects|] == effects;
  }
}
