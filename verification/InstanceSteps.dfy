/** The other transactions of one instance: admission, creation, lifecycle, deletion, recovery, storage. */
module InstanceSteps {
  import opened Wrappers
  import opened LedgerTypes
  import opened PortEdits
  import Journal

  // Creating an instance ------------------------------------------------------------------------

  datatype StorageRequest = StorageRequest(slot: string, identity: string, evidence: string)

  datatype InstanceRecord = InstanceRecord(
    id: string, scope: string, target: string, cloneSource: Option<string>,
    ports: Proposal, how: Method, storage: seq<StorageRequest>)

  /** Primary keys and the active-port index accept these port rows. */
  ghost predicate PortsInsertable(ports: Proposal, taken: set<Endpoint>) {
    && (forall i | 0 <= i < |ports| :: ports[i].1.at !in taken)
    && (forall i, j | 0 <= i < j < |ports| :: ports[i].0 != ports[j].0 && ports[i].1.at != ports[j].1.at)
  }

  /** Primary keys and the resource index accept these storage rows. */
  ghost predicate StorageInsertable(storage: seq<StorageRequest>, used: set<string>) {
    && (forall i | 0 <= i < |storage| :: storage[i].identity !in used)
    && (forall i, j | 0 <= i < j < |storage| ::
          storage[i].slot != storage[j].slot && storage[i].identity != storage[j].identity)
  }

  ghost predicate Insertable(record: InstanceRecord, taken: set<Endpoint>, used: set<string>) {
    PortsInsertable(record.ports, taken) && StorageInsertable(record.storage, used)
  }

  function Planned(how: Method, request: StorageRequest): Allocation {
    Allocation(how, request.identity, request.evidence, Assigned, NotMaterialized, NotAttempted)
  }

  function Allocations(how: Method, storage: seq<StorageRequest>): map<string, Allocation> {
    if storage == [] then map[]
    else
      var last := storage[|storage| - 1];
      Allocations(how, storage[..|storage| - 1])[last.slot := Planned(how, last)]
  }

  function InitialIds(ports: Bindings): set<ReservationId> {
    set slot | slot in ports :: Initial(slot)
  }

  function FirstReservations(ports: Bindings): Reservations {
    map id | id in InitialIds(ports) :: Reservation(ports[id.slot].at, Committed)
  }

  function NewCell(record: InstanceRecord, op: string, kind: Kind, phase: string): Cell {
    var ports := ToMap(record.ports);
    Cell(record.scope, record.target, Managed, 1, None, map[1 := ports],
         map[op := Operation(kind, Accepted, phase, 1, 1, None, Some(1), map[])],
         FirstReservations(ports), map[], Allocations(record.how, record.storage))
  }

  // Accepting an operation ------------------------------------------------------------------------

  datatype Intent = Intent(
    id: string, instance: string, kind: Kind, phase: string, expected: nat, oldSpec: Option<nat>, newSpec: Option<nat>)

  function Admitted(c: Cell, intent: Intent): Cell {
    var op := Operation(intent.kind, Accepted, intent.phase, 1, intent.expected, intent.oldSpec, intent.newSpec, map[]);
    if intent.kind == Delete then
      c.(ops := c.ops[intent.id := op], lifecycle := Retiring, revision := intent.expected + 1)
    else c.(ops := c.ops[intent.id := op])
  }

  predicate KnownSpec(c: Cell, revision: Option<nat>) { revision.None? || revision.value in c.specs }

  function Admit(c: Cell, scope: string, intent: Intent, confirmed: nat, unused: bool): Result<Cell, Conflict> {
    if c.scope != scope || c.lifecycle != Managed then Err(Missing)
    else if c.revision != intent.expected then Err(StaleRevision)
    else if Busy(c) then Err(UnresolvedOperation)
    else if intent.kind == Delete && (confirmed != intent.expected || intent.oldSpec.Some? || intent.newSpec.Some?)
    then Err(InvalidInput)
    else if !unused then Err(Duplicate)
    else if !KnownSpec(c, intent.oldSpec) || !KnownSpec(c, intent.newSpec) then Err(Missing)
    else Ok(Admitted(c, intent))
  }

  /** Accepts a recovery from external edits; the artifact shown must be the published, selected one. */
  function BeginRecovery(c: Cell, scope: string, op: string, confirmed: nat, spec: nat, selected: bool)
    : Result<Cell, Conflict>
  {
    if !(c.scope == scope && c.lifecycle == Managed && c.revision == confirmed && c.applied == Some(spec) && selected)
    then Err(InvalidInput)
    else if Busy(c) then Err(Duplicate)
    else Ok(Admitted(c, Intent(op, "", Recover, "confirm", confirmed, Some(spec), None)))
  }

  // Storage -------------------------------------------------------------------------------------

  predicate MayFollow(current: Presence, next: Presence) {
    match current
    case NotMaterialized => true
    case Present => next != NotMaterialized
    case Absent => next == Absent
    case Unverified => next != NotMaterialized
  }

  function SetPresence(c: Cell, slot: string, presence: Presence): Result<Cell, Conflict> {
    if slot !in c.storage then Err(Missing)
    else if !MayFollow(c.storage[slot].presence, presence) then Err(InvalidInput)
    else Ok(c.(storage := c.storage[slot := c.storage[slot].(presence := presence)]))
  }

  predicate LowerHex64(text: string) {
    |text| == 64 && forall i | 0 <= i < 64 :: IsDigit(text[i]) || 'a' <= text[i] <= 'f'
  }

  function RecordBind(c: Cell, op: string, slot: string, identity: string, evidence: string): Result<Cell, Conflict> {
    if !LowerHex64(evidence) then Err(InvalidInput)
    else if op !in c.ops then Err(Missing)
    else if !Creates(c.ops[op].kind) || c.ops[op].status != Executing then Err(InvalidInput)
    else if slot !in c.storage then Err(Missing)
    else
      var saved := c.storage[slot];
      if saved.how != Bind || saved.presence != NotMaterialized || saved.identity != identity then Err(InvalidInput)
      else Ok(c.(storage := c.storage[slot := saved.(evidence := evidence, presence := Present)]))
  }

  /** The last step saw the state of the created container in this attempt. */
  ghost predicate SawState(o: Operation) {
    && o.steps != map[]
    && var last := o.steps[Journal.Last(o.steps)];
    && last.command == Observe && last.expected == StateObserved
    && last.outcome == Some(StepSucceeded) && last.attempt == o.attempt
  }

  function Succeeding(o: Operation, command: Command): set<nat> {
    set k | k in o.steps && o.steps[k].command == command && o.steps[k].attempt == o.attempt
      && o.steps[k].outcome == Some(StepSucceeded)
  }

  function Issued(o: Operation, command: Command): set<nat> {
    set k | k in o.steps && o.steps[k].command == command
  }

  ghost predicate Precedes(steps: set<nat>, o: Operation) {
    steps != {} && Largest(steps) < Journal.Last(o.steps)
  }

  function Marked(storage: map<string, Allocation>): map<string, Allocation> {
    map slot | slot in storage :: storage[slot].(initialization := MayHaveInitialized)
  }

  predicate Markable(storage: map<string, Allocation>) {
    forall slot | slot in storage :: storage[slot].presence == Present && storage[slot].initialization != ReadyObserved
  }

  ghost function MarkMayHaveInitialized(c: Cell, op: string): Result<Cell, Conflict> {
    if op !in c.ops then Err(Missing)
    else
      var o := c.ops[op];
      if !Creates(o.kind) || o.status != Executing then Err(InvalidInput)
      else if o.steps == map[] then Err(Missing)
      else if !SawState(o) || !Precedes(Succeeding(o, ComposeCreate), o) then Err(InvalidInput)
      else if !Markable(c.storage) then Err(InvalidInput)
      else Ok(c.(storage := Marked(c.storage)))
  }

  /** Before a recovered start: whatever is present may already hold data. */
  function Overwritten(storage: map<string, Allocation>): map<string, Allocation> {
    map slot | slot in storage ::
      if storage[slot].presence == Present then storage[slot].(initialization := MayHaveInitialized) else storage[slot]
  }

  // Completing ----------------------------------------------------------------------------------

  ghost function CompleteReady(c: Cell, op: string, container: string): Result<Cell, Conflict> {
    if !Hex64(container) then Err(InvalidInput)
    else if op !in c.ops then Err(Missing)
    else
      var o := c.ops[op];
      if !Creates(o.kind) || o.status != Executing || o.newSpec != Some(1) then Err(InvalidInput)
      else if o.steps == map[] then Err(Missing)
      else if !SawState(o) || o.steps[Journal.Last(o.steps)].resource != container then Err(InvalidInput)
      else if !Precedes(if o.phase == "reconcile" then Issued(o, ComposeStart) else Succeeding(o, ComposeStart), o)
      then Err(InvalidInput)
      else if !MayBeReady(c.storage) then Err(InvalidInput)
      else Ok(c.(
        storage := MarkReady(c.storage), applied := Some(1),
        ops := c.ops[op := o.(status := Succeeded, phase := "ready")]))
  }

  datatype Runtime = Ready | Stopped | Gone | Preparing | Unhealthy | Unknown

  function LifecyclePhase(runtime: Runtime): Option<string> {
    match runtime
    case Ready => Some("running")
    case Stopped => Some("stopped")
    case Gone => Some("absent")
    case _ => None
  }

  /** Finishes a start, stop or restart; it does not look at the steps. */
  function CompleteLifecycle(c: Cell, op: string, container: string, runtime: Runtime, observed: bool)
    : Result<Cell, Conflict>
  {
    if !Hex64(container) || LifecyclePhase(runtime).None? then Err(InvalidInput)
    else if op !in c.ops then Err(Missing)
    else
      var o := c.ops[op];
      if o.status != Executing || c.lifecycle != Managed || !Lifecycles(o.kind) || o.oldSpec != c.applied
      then Err(InvalidInput)
      else if !observed then Err(Missing)
      else Ok(c.(ops := c.ops[op := o.(status := Succeeded, phase := LifecyclePhase(runtime).value)]))
  }

  ghost function CompleteRecovery(c: Cell, op: string, container: string, runtime: Runtime, published: bool)
    : Result<Cell, Conflict>
  {
    if !Hex64(container) || runtime in {Gone, Unknown} then Err(InvalidInput)
    else if !(op in c.ops && c.ops[op].kind == Recover && c.ops[op].status == Executing && c.lifecycle == Managed
              && c.revision == c.ops[op].expected && c.applied == c.ops[op].oldSpec && c.applied.Some? && published)
    then Err(InvalidInput)
    else if !Saw(c.ops[op], container, StateObserved) then Err(InvalidInput)
    else Ok(c.(revision := c.revision + 1,
               ops := c.ops[op := c.ops[op].(status := Succeeded, phase := "restored")]))
  }

  // Deleting --------------------------------------------------------------------------------------

  datatype StorageCheck = StorageCheck(slot: string, presence: Presence)

  /** Every allocation is checked exactly once and nothing else is. */
  ghost predicate ChecksAll(storage: map<string, Allocation>, checks: seq<StorageCheck>) {
    && |checks| == |storage|
    && forall slot | slot in storage :: |set i | 0 <= i < |checks| && checks[i].slot == slot| == 1
  }

  function RetainOne(storage: map<string, Allocation>, check: StorageCheck): map<string, Allocation> {
    if check.slot in storage then
      storage[check.slot := storage[check.slot].(ownership := Retained, presence := check.presence)]
    else storage
  }

  function Retain(storage: map<string, Allocation>, checks: seq<StorageCheck>): map<string, Allocation> {
    if checks == [] then storage
    else RetainOne(Retain(storage, checks[..|checks| - 1]), checks[|checks| - 1])
  }

  function ReleaseAll(rs: Reservations): Reservations { map id | id in rs :: Release(rs[id]) }

  function Deleted(c: Cell, op: string, checks: seq<StorageCheck>): Cell
    requires op in c.ops
  {
    c.(storage := Retain(c.storage, checks), reservations := ReleaseAll(c.reservations),
       lifecycle := Retired, revision := c.revision + 1,
       ops := c.ops[op := c.ops[op].(status := Succeeded, phase := "retired")])
  }

  ghost function CompleteDelete(c: Cell, scope: string, op: string, checks: seq<StorageCheck>): Result<Cell, Conflict> {
    if op !in c.ops then Err(Missing)
    else
      var o := c.ops[op];
      if o.kind != Delete || o.status != Executing || c.scope != scope || c.lifecycle != Retiring
        || o.expected + 1 != c.revision || Journal.AnyOpen(o.steps)
      then Err(InvalidInput)
      else if !ChecksAll(c.storage, checks) then Err(InvalidInput)
      else Ok(Deleted(c, op, checks))
  }

  // Renaming ----------------------------------------------------------------------------------------

  function RenameInstance(c: Cell, expected: nat): Result<Cell, Conflict> {
    if c.revision != expected then Err(StaleRevision)
    else if c.lifecycle != Managed then Err(InvalidLifecycle)
    else if Busy(c) then Err(UnresolvedOperation)
    else Ok(c.(revision := c.revision + 1))
  }
}
