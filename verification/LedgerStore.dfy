/** The durable store: every transaction the program makes, as one atomic step over all rows. */
module LedgerStore {
  import opened Wrappers
  import opened LedgerTypes
  import opened PortEdits
  import opened InstanceSteps
  import Journal

  // Lookups -------------------------------------------------------------------------------------

  /** Endpoints actively reserved in a scope by instances other than one. */
  function Taken(db: Db, scope: string, except: string): set<Endpoint> {
    set i, id | i in db.cells && i != except && db.cells[i].scope == scope
      && id in db.cells[i].reservations && Active(db.cells[i].reservations[id])
      :: db.cells[i].reservations[id].at
  }

  /** Storage resources allocated to any instance. */
  function Used(db: Db): set<string> {
    set i, slot | i in db.cells && slot in db.cells[i].storage :: db.cells[i].storage[slot].identity
  }

  predicate HasPlan(receipt: Receipt, scope: string, plan: string) {
    receipt.scope == scope && receipt.plan == Some(plan)
  }

  /** A receipt by request, or else by plan. */
  ghost function FindReceipt(db: Db, scope: string, request: string, plan: Option<string>): Option<Receipt> {
    if (scope, request) in db.receipts then Some(db.receipts[(scope, request)])
    else if plan.Some? && exists key :: key in db.receipts && HasPlan(db.receipts[key], scope, plan.value) then
      var key :| key in db.receipts && HasPlan(db.receipts[key], scope, plan.value);
      Some(db.receipts[key])
    else None
  }

  // Writes --------------------------------------------------------------------------------------

  function Put(db: Db, instance: string, result: Result<Cell, Conflict>): Result<Db, Conflict> {
    match result
    case Ok(c) => Ok(db.(cells := db.cells[instance := c]))
    case Err(e) => Err(e)
  }

  function WithReceipt(db: Db, receipt: Receipt): Db {
    db.(owner := db.owner[receipt.operation := receipt.instance],
        receipts := db.receipts[(receipt.scope, receipt.request) := receipt])
  }

  /** Rows of a newly accepted operation together with its receipt. */
  function Enter(db: Db, receipt: Receipt, result: Result<Cell, Conflict>): Result<Db, Conflict> {
    match Put(db, receipt.instance, result)
    case Ok(next) => if receipt.operation in db.owner then Err(Duplicate) else Ok(WithReceipt(next, receipt))
    case Err(e) => Err(e)
  }

  // Acceptance ----------------------------------------------------------------------------------

  /** What a repeated request is answered with. */
  function Replay(existing: Receipt, same: bool): Result<Receipt, Conflict> {
    if same then Ok(existing) else Err(Duplicate)
  }

  predicate SamePlan(a: Receipt, b: Receipt) {
    a.plan == b.plan && a.confirmed == b.confirmed && a.hash == b.hash
  }

  datatype TargetGuard = TargetGuard(id: string, scope: string)

  datatype CloneGuard = CloneGuard(instance: string, revision: nat, spec: nat)

  datatype PlanCommit = PlanCommit(
    record: InstanceRecord, intent: Intent, receipt: Receipt, target: TargetGuard, clone: Option<CloneGuard>,
    targetMatches: bool, templateKnown: bool)

  predicate ValidPlanCommit(p: PlanCommit) {
    && p.record.id != "" && p.record.scope != "" && p.intent.id != "" && p.intent.instance == p.record.id
    && ((p.record.cloneSource.None? && p.intent.kind == Create)
        || (p.record.cloneSource.Some? && p.intent.kind == Clone))
    && p.intent.expected == 1 && p.intent.oldSpec.None? && p.intent.newSpec == Some(1)
    && p.receipt.scope == p.record.scope && p.receipt.instance == p.record.id && p.receipt.operation == p.intent.id
    && p.receipt.plan.Some? && p.receipt.plan.value != "" && p.receipt.request != "" && Hex64(p.receipt.hash)
    && p.target == TargetGuard(p.record.target, p.record.scope)
    && p.record.cloneSource == (if p.clone.Some? then Some(p.clone.value.instance) else None)
    && p.receipt.confirmed > 0 && (p.clone.Some? ==> p.clone.value.revision > 0 && p.clone.value.spec > 0)
  }

  ghost function CloneRefused(db: Db, record: InstanceRecord, guard: CloneGuard): Option<Conflict> {
    if guard.instance !in db.cells then Some(StaleRevision)
    else
      var c := db.cells[guard.instance];
      if !(c.scope == record.scope && c.target == record.target && c.lifecycle == Managed && c.revision == guard.revision)
        || CommittedRevision(c) != guard.spec || guard.spec !in c.specs
      then Some(StaleRevision)
      else if Busy(c) then Some(InvalidLifecycle)
      else None
  }

  ghost function CommitPlan(db: Db, p: PlanCommit): Result<(Db, Receipt), Conflict> {
    if !ValidPlanCommit(p) then Err(InvalidInput)
    else
      match FindReceipt(db, p.receipt.scope, p.receipt.request, p.receipt.plan)
      case Some(existing) => (
        match Replay(existing, SamePlan(existing, p.receipt))
        case Ok(r) => Ok((db, r))
        case Err(e) => Err(e)
      )
      case None =>
        if !p.targetMatches then Err(StaleRevision)
        else if p.clone.Some? && CloneRefused(db, p.record, p.clone.value).Some? then
          Err(CloneRefused(db, p.record, p.clone.value).value)
        else if !p.templateKnown then Err(Missing)
        else if p.record.id in db.cells || !Insertable(p.record, Taken(db, p.record.scope, p.record.id), Used(db))
        then Err(Duplicate)
        else
          match Enter(db, p.receipt, Ok(NewCell(p.record, p.intent.id, p.intent.kind, p.intent.phase)))
          case Ok(next) => Ok((next, p.receipt))
          case Err(e) => Err(e)
  }

  predicate PositiveIfSome(n: Option<nat>) { n.Some? ==> n.value > 0 }

  predicate ValidAccept(intent: Intent, receipt: Receipt) {
    && intent.id != "" && intent.instance != "" && intent.phase != ""
    && receipt.scope != "" && receipt.request != "" && receipt.plan != Some("") && Hex64(receipt.hash)
    && receipt.instance == intent.instance && receipt.operation == intent.id
    && intent.expected > 0 && receipt.confirmed > 0
    && PositiveIfSome(intent.oldSpec) && PositiveIfSome(intent.newSpec)
  }

  ghost function Accept(db: Db, intent: Intent, receipt: Receipt): Result<(Db, Receipt), Conflict> {
    if !ValidAccept(intent, receipt) then Err(InvalidInput)
    else
      match FindReceipt(db, receipt.scope, receipt.request, receipt.plan)
      case Some(existing) => (
        match Replay(existing, existing == receipt || (receipt.plan.Some? && SamePlan(existing, receipt)))
        case Ok(r) => Ok((db, r))
        case Err(e) => Err(e)
      )
      case None =>
        if intent.instance !in db.cells then Err(Missing)
        else
          var c := db.cells[intent.instance];
          match Enter(db, receipt, Admit(c, receipt.scope, intent, receipt.confirmed, intent.id !in db.owner))
          case Ok(next) => Ok((next, receipt))
          case Err(e) => Err(e)
  }

  predicate ValidEdit(receipt: Receipt, request: EditRequest) {
    && request.expected > 0 && request.base > 0 && receipt.instance != "" && receipt.operation != ""
    && receipt.request != "" && receipt.scope != "" && receipt.plan.None?
    && receipt.confirmed == request.expected && Hex64(receipt.hash)
  }

  ghost function AcceptEdit(db: Db, receipt: Receipt, request: EditRequest): Result<(Db, Receipt), Conflict> {
    if !ValidEdit(receipt, request) then Err(InvalidInput)
    else if (receipt.scope, receipt.request) in db.receipts then
      var prior := db.receipts[(receipt.scope, receipt.request)];
      if prior.instance == receipt.instance && prior.operation == receipt.operation && prior.hash == receipt.hash
      then Ok((db, receipt)) else Err(Duplicate)
    else if receipt.instance !in db.cells then Err(Missing)
    else
      var c := db.cells[receipt.instance];
      var taken := Taken(db, c.scope, receipt.instance);
      match Enter(db, receipt, BeginEdit(c, receipt.scope, taken, receipt.operation, request))
      case Ok(next) => Ok((next, receipt))
      case Err(e) => Err(e)
  }

  /** The request's own hash and the artifact's condition come from outside the store. */
  datatype RecoveryRequest = RecoveryRequest(receipt: Receipt, spec: nat, valid: bool, selected: bool, sameEvidence: bool)

  ghost function AcceptRecovery(db: Db, request: RecoveryRequest): Result<(Db, Receipt), Conflict> {
    var receipt := request.receipt;
    if !request.valid || receipt.plan.Some? || receipt.request == "" || receipt.confirmed == 0 || request.spec == 0
    then Err(InvalidInput)
    else if (receipt.scope, receipt.request) in db.receipts then
      var prior := db.receipts[(receipt.scope, receipt.request)];
      if prior.instance == receipt.instance && prior.operation == receipt.operation && prior.hash == receipt.hash
        && prior.confirmed == receipt.confirmed && request.sameEvidence
      then Ok((db, receipt)) else Err(InvalidInput)
    else if receipt.instance !in db.cells then Err(InvalidInput)
    else
      var c := db.cells[receipt.instance];
      match Enter(db, receipt,
                  BeginRecovery(c, receipt.scope, receipt.operation, receipt.confirmed, request.spec, request.selected))
      case Ok(next) => Ok((next, receipt))
      case Err(e) => Err(e)
  }

  // Steps of accepted operations --------------------------------------------------------------------

  /** Status the journal sees through the owner column. */
  ghost function Journaled(db: Db, op: string, call: Journal.Call): Result<Db, Conflict> {
    if op !in db.owner || db.owner[op] !in db.cells || op !in db.cells[db.owner[op]].ops then Err(Journal.Unknown(call))
    else
      var i := db.owner[op];
      match Journal.Apply(db.cells[i].ops[op], call)
      case Ok(after) => Put(db, i, Ok(db.cells[i].(ops := db.cells[i].ops[op := after])))
      case Err(e) => Err(e)
  }

  function AfterCrash(op: Operation): Operation {
    if op.status == Executing then op.(status := OutcomeUnknown) else op
  }

  function RestartCell(c: Cell): Cell {
    c.(ops := map op | op in c.ops :: AfterCrash(c.ops[op]))
  }

  /** Nobody can know how an operation ended that was executing when the program stopped. */
  function RecoverOnStartup(db: Db): Db {
    db.(cells := map i | i in db.cells :: RestartCell(db.cells[i]))
  }

  ghost function Confirm(db: Db, receipt: Receipt, candidate: nat, ports: Proposal): Result<Db, Conflict> {
    var key := (receipt.scope, receipt.request);
    if !(receipt.instance in db.cells && receipt.operation in db.cells[receipt.instance].ops
          && db.cells[receipt.instance].scope == receipt.scope && key in db.receipts
          && db.receipts[key].operation == receipt.operation && db.receipts[key].hash == receipt.hash
          && db.receipts[key].confirmed == receipt.confirmed)
    then Err(Backend)
    else
      var c := db.cells[receipt.instance];
      Put(db, receipt.instance,
          ConfirmPorts(c, Taken(db, c.scope, receipt.instance), receipt.operation, candidate, ports))
  }

  /** A step of the instance that owns an operation; unknown is the answer when there is none. */
  ghost function OnOwner(db: Db, op: string, unknown: Conflict, step: Cell -> Result<Cell, Conflict>): Result<Db, Conflict> {
    if op in db.owner && db.owner[op] in db.cells then Put(db, db.owner[op], step(db.cells[db.owner[op]]))
    else Err(unknown)
  }

  ghost function RemoveInstance(db: Db, receipt: Receipt, checks: seq<StorageCheck>): Result<Db, Conflict> {
    var key := (receipt.scope, receipt.request);
    if key !in db.receipts || db.receipts[key] != receipt then Err(InvalidInput)
    else if receipt.instance !in db.cells then Err(Missing)
    else Put(db, receipt.instance,
             CompleteDelete(db.cells[receipt.instance], receipt.scope, receipt.operation, checks))
  }

  // Transactions ------------------------------------------------------------------------------------

  datatype Txn =
    | CommitNew(plan: PlanCommit)
    | AcceptIntent(intent: Intent, receipt: Receipt)
    | EditPorts(receipt: Receipt, request: EditRequest)
    | RecoverFiles(recovery: RecoveryRequest)
    | Write(op: string, call: Journal.Call)
    | Restart
    | ConfirmOther(receipt: Receipt, candidate: nat, ports: Proposal, refused: set<u16>)
    | Settle(op: string, container: string, restore: bool, published: bool)
    | BindPresent(op: string, slot: string, identity: string, evidence: string)
    | MarkStarted(op: string)
    | OverwriteStarted(op: string)
    | FinishCreate(op: string, container: string)
    | FinishLifecycle(op: string, container: string, runtime: Runtime, observed: bool)
    | FinishRecovery(op: string, container: string, runtime: Runtime, published: bool)
    | FinishDelete(receipt: Receipt, checks: seq<StorageCheck>)
    | SetSeen(instance: string, slot: string, presence: Presence)
    | Retitle(instance: string, revision: nat)

  function First<T>(r: Result<(Db, T), Conflict>): Result<Db, Conflict> {
    match r case Ok(pair) => Ok(pair.0) case Err(e) => Err(e)
  }

  ghost function Apply(db: Db, t: Txn): Result<Db, Conflict> {
    match t
    case CommitNew(plan) => First(CommitPlan(db, plan))
    case AcceptIntent(intent, receipt) => First(Accept(db, intent, receipt))
    case EditPorts(receipt, request) => First(AcceptEdit(db, receipt, request))
    case RecoverFiles(recovery) => First(AcceptRecovery(db, recovery))
    case Write(op, call) => Journaled(db, op, call)
    case Restart => Ok(RecoverOnStartup(db))
    case ConfirmOther(receipt, candidate, ports, _) => Confirm(db, receipt, candidate, ports)
    case Settle(op, container, restore, published) =>
      if !Hex64(container) then Err(InvalidInput)
      else OnOwner(db, op, Backend, c => FinishChange(c, op, container, restore, published))
    case BindPresent(op, slot, identity, evidence) =>
      if !LowerHex64(evidence) then Err(InvalidInput)
      else OnOwner(db, op, Missing, c => RecordBind(c, op, slot, identity, evidence))
    case MarkStarted(op) => OnOwner(db, op, Missing, c => MarkMayHaveInitialized(c, op))
    case OverwriteStarted(op) => OnOwner(db, op, Missing, (c: Cell) => Ok(c.(storage := Overwritten(c.storage))))
    case FinishCreate(op, container) =>
      if !Hex64(container) then Err(InvalidInput)
      else OnOwner(db, op, Missing, c => CompleteReady(c, op, container))
    case FinishLifecycle(op, container, runtime, observed) =>
      if !Hex64(container) || LifecyclePhase(runtime).None? then Err(InvalidInput)
      else OnOwner(db, op, Missing, c => CompleteLifecycle(c, op, container, runtime, observed))
    case FinishRecovery(op, container, runtime, published) =>
      OnOwner(db, op, InvalidInput, c => CompleteRecovery(c, op, container, runtime, published))
    case FinishDelete(receipt, checks) => RemoveInstance(db, receipt, checks)
    case SetSeen(instance, slot, presence) =>
      if instance !in db.cells then Err(Missing) else Put(db, instance, SetPresence(db.cells[instance], slot, presence))
    case Retitle(instance, revision) =>
      if instance !in db.cells then Err(Missing) else Put(db, instance, RenameInstance(db.cells[instance], revision))
  }

  /** A refused transaction is rolled back. */
  ghost function Next(db: Db, t: Txn): Db {
    match Apply(db, t) case Ok(after) => after case Err(_) => db
  }
}
