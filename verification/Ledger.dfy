/** The database as one mutable object; each method is one transaction, rolled back when it fails. */
module LedgerObject {
  import opened Wrappers
  import opened LedgerTypes
  import opened PortEdits
  import opened CellInvariant
  import opened InstanceSteps
  import opened LedgerStore
  import opened StoreProofs
  import opened LedgerRuns
  import opened LedgerTheorems
  import opened LedgerLoops
  import Journal

  function Second<T>(r: Result<(Db, T), Conflict>): Result<T, Conflict> {
    match r case Ok(pair) => Ok(pair.1) case Err(e) => Err(e)
  }

  /** What a caller without a result value learns. */
  function Done(r: Result<Db, Conflict>): Result<(), Conflict> {
    match r case Ok(_) => Ok(()) case Err(e) => Err(e)
  }

  class Ledger {
    var cells: map<string, Cell>
    var owner: map<string, string>
    var receipts: map<(string, string), Receipt>

    ghost function State(): Db
      reads this
    {
      Db(cells, owner, receipts)
    }

    ghost predicate Valid()
      reads this
    {
      DbOk(State())
    }

    constructor ()
      ensures Valid() && State() == EMPTY_DB
    {
      cells, owner, receipts := map[], map[], map[];
      new;
      EmptyIsOk();
    }

    // Receipts --------------------------------------------------------------------------------

    method StoredReceipt(scope: string, request: string, plan: Option<string>) returns (r: Option<Receipt>)
      requires Valid()
      ensures r == FindReceipt(State(), scope, request, plan)
    {
      if (scope, request) in receipts { return Some(receipts[(scope, request)]); }
      if plan.None? { return None; }
      var found := SearchPlan(receipts, scope, plan.value);
      if found.None? { return None; }
      StoredReceiptFound(State(), found.value);
      r := Some(receipts[found.value]);
    }

    method Enrol(receipt: Receipt, c: Cell)
      modifies this
      ensures State() == WithReceipt(old(State()).(cells := old(cells)[receipt.instance := c]), receipt)
    {
      cells := cells[receipt.instance := c];
      owner := owner[receipt.operation := receipt.instance];
      receipts := receipts[(receipt.scope, receipt.request) := receipt];
    }

    // Acceptance --------------------------------------------------------------------------------

    method LargestSucceeded(c: Cell) returns (revision: nat)
      ensures revision == CommittedRevision(c)
    {
      var revisions := CommittedRevisions(c);
      if revisions == {} { return 1; }
      revision := FindLargest(revisions);
    }

    method CheckClone(record: InstanceRecord, guard: CloneGuard) returns (refused: Option<Conflict>)
      ensures refused == CloneRefused(State(), record, guard)
    {
      if guard.instance !in cells { return Some(StaleRevision); }
      var c := cells[guard.instance];
      if !(c.scope == record.scope && c.target == record.target && c.lifecycle == Managed && c.revision == guard.revision) {
        return Some(StaleRevision);
      }
      var latest := LargestSucceeded(c);
      if latest != guard.spec || guard.spec !in c.specs { return Some(StaleRevision); }
      refused := if Busy(c) then Some(InvalidLifecycle) else None;
    }

    /** Builds the rows of a new instance. */
    method InsertInstance(record: InstanceRecord, op: string, kind: Kind, phase: string) returns (r: Result<Cell, Conflict>)
      ensures r == if record.id in cells || !Insertable(record, Taken(State(), record.scope, record.id), Used(State()))
        then Err(Duplicate) else Ok(NewCell(record, op, kind, phase))
    {
      hide Taken, FirstReservations, ToMap, Allocations;
      if record.id in cells { return Err(Duplicate); }
      var taken := Taken(Db(cells, owner, receipts), record.scope, record.id);
      var ok, bindings, rs := InsertPorts(record.ports, taken);
      if !ok { return Err(Duplicate); }
      var stored, rows := InsertStorage(record.how, record.storage, Used(Db(cells, owner, receipts)));
      if !stored { return Err(Duplicate); }
      var first := Operation(kind, Accepted, phase, 1, 1, None, Some(1), map[]);
      r := Ok(Cell(record.scope, record.target, Managed, 1, None, map[1 := bindings], map[op := first],
                   rs, map[], rows));
    }

    method CommitPlan(p: PlanCommit) returns (r: Result<Receipt, Conflict>)
      requires Valid() && Allowed(State(), CommitNew(p))
      modifies this
      ensures Valid() && State() == Next(old(State()), CommitNew(p))
      ensures r == Second(LedgerStore.CommitPlan(old(State()), p))
    {
      hide DbOk, Allowed, ValidPlanCommit, FindReceipt, Insertable, Taken, CloneRefused, NewCell;
      StepKeeps(State(), CommitNew(p));
      if !ValidPlanCommit(p) { return Err(InvalidInput); }
      PlanCommitNames(p);
      var existing := StoredReceipt(p.receipt.scope, p.receipt.request, p.receipt.plan);
      if existing.Some? {
        if SamePlan(existing.value, p.receipt) { return Ok(existing.value); }
        return Err(Duplicate);
      }
      if !p.targetMatches { return Err(StaleRevision); }
      if p.clone.Some? {
        var refused := CheckClone(p.record, p.clone.value);
        if refused.Some? { return Err(refused.value); }
      }
      if !p.templateKnown { return Err(Missing); }
      var inserted := InsertInstance(p.record, p.intent.id, p.intent.kind, p.intent.phase);
      if inserted.Err? { return Err(inserted.error); }
      if p.receipt.operation in owner { return Err(Duplicate); }
      Enrol(p.receipt, inserted.value);
      r := Ok(p.receipt);
    }

    method Accept(intent: Intent, receipt: Receipt) returns (r: Result<Receipt, Conflict>)
      requires Valid() && Allowed(State(), AcceptIntent(intent, receipt))
      modifies this
      ensures Valid() && State() == Next(old(State()), AcceptIntent(intent, receipt))
      ensures r == Second(LedgerStore.Accept(old(State()), intent, receipt))
    {
      hide DbOk, Allowed, ValidAccept, FindReceipt, Busy;
      StepKeeps(State(), AcceptIntent(intent, receipt));
      if !ValidAccept(intent, receipt) { return Err(InvalidInput); }
      var existing := StoredReceipt(receipt.scope, receipt.request, receipt.plan);
      if existing.Some? {
        if existing.value == receipt || (receipt.plan.Some? && SamePlan(existing.value, receipt)) {
          return Ok(existing.value);
        }
        return Err(Duplicate);
      }
      AcceptNames(intent, receipt);
      if intent.instance !in cells { return Err(Missing); }
      var c := cells[intent.instance];
      if c.scope != receipt.scope || c.lifecycle != Managed { return Err(Missing); }
      if c.revision != intent.expected { return Err(StaleRevision); }
      if Busy(c) { return Err(UnresolvedOperation); }
      if intent.kind == Delete {
        if receipt.confirmed != intent.expected || intent.oldSpec.Some? || intent.newSpec.Some? { return Err(InvalidInput); }
        c := c.(lifecycle := Retiring, revision := intent.expected + 1);
      }
      if intent.id in owner { return Err(Duplicate); }
      if !KnownSpec(c, intent.oldSpec) || !KnownSpec(c, intent.newSpec) { return Err(Missing); }
      c := c.(ops := c.ops[intent.id := Operation(
        intent.kind, Accepted, intent.phase, 1, intent.expected, intent.oldSpec, intent.newSpec, map[])]);
      Enrol(receipt, c);
      r := Ok(receipt);
    }

    method BeginPortEdit(receipt: Receipt, request: EditRequest) returns (r: Result<Receipt, Conflict>)
      requires Valid()
      modifies this
      ensures Valid() && State() == Next(old(State()), EditPorts(receipt, request))
      ensures r == Second(AcceptEdit(old(State()), receipt, request))
    {
      hide DbOk, ValidEdit, Taken, Busy, Hold, Acceptable, ToMap, Refused;
      StepKeeps(State(), EditPorts(receipt, request));
      if !ValidEdit(receipt, request) { return Err(InvalidInput); }
      var key := (receipt.scope, receipt.request);
      if key in receipts {
        var prior := receipts[key];
        if prior.instance == receipt.instance && prior.operation == receipt.operation && prior.hash == receipt.hash {
          return Ok(receipt);
        }
        return Err(Duplicate);
      }
      if receipt.instance !in cells { return Err(Missing); }
      var c := cells[receipt.instance];
      var edited := this.EditCell(c, receipt, request);
      if edited.Err? { return Err(edited.error); }
      if receipt.operation in owner { return Err(Duplicate); }
      Enrol(receipt, edited.value);
      r := Ok(receipt);
    }

    /** The checks and row inserts of one edit. */
    method EditCell(c: Cell, receipt: Receipt, request: EditRequest) returns (r: Result<Cell, Conflict>)
      ensures r == BeginEdit(c, receipt.scope, Taken(State(), c.scope, receipt.instance), receipt.operation, request)
    {
      hide DbOk, Taken, Busy, Hold, Acceptable, ToMap, Refused, Changed, CommittedAt, NewIds;
      if c.scope != receipt.scope || c.lifecycle != Managed { return Err(InvalidLifecycle); }
      if c.revision != request.expected { return Err(StaleRevision); }
      if c.applied != Some(request.base) { return Err(InvalidInput); }
      if Busy(c) { return Err(UnresolvedOperation); }
      var before := Ports(c, request.base);
      var next := CheckPorts(before, request.ports);
      if next.Err? { return Err(InvalidInput); }
      if exists slot :: slot in before && |CommittedAt(c.reservations, before[slot].at)| != 1 { return Err(InvalidInput); }
      var after := next.value;
      assert Distinct(after) by { AcceptableMoves(before, request.ports); }
      var latest := FindLargest(c.specs.Keys);
      var ok, held := HoldChanged(c.reservations, Taken(Db(cells, owner, receipts), c.scope, receipt.instance),
                                  before, after, latest + 1);
      if !ok { return Err(Duplicate); }
      r := Ok(c.(
        specs := c.specs[latest + 1 := after],
        ops := c.ops[receipt.operation := Operation(EditPort, Accepted, "accepted", 1, request.expected,
                                                    Some(request.base), Some(latest + 1), map[])],
        reservations := held,
        pending := c.pending[receipt.operation :=
          Pending(request.base, latest + 1, PortsHash(after), NewIds(Changed(before, after), latest + 1))]));
    }

    method BeginExternalRecovery(request: RecoveryRequest) returns (r: Result<Receipt, Conflict>)
      requires Valid()
      modifies this
      ensures Valid() && State() == Next(old(State()), RecoverFiles(request))
      ensures r == Second(AcceptRecovery(old(State()), request))
    {
      hide DbOk, Busy;
      StepKeeps(State(), RecoverFiles(request));
      var receipt := request.receipt;
      if !request.valid || receipt.plan.Some? || receipt.request == "" || receipt.confirmed == 0 || request.spec == 0 {
        return Err(InvalidInput);
      }
      var key := (receipt.scope, receipt.request);
      if key in receipts {
        var prior := receipts[key];
        if prior.instance == receipt.instance && prior.operation == receipt.operation && prior.hash == receipt.hash
          && prior.confirmed == receipt.confirmed && request.sameEvidence
        {
          return Ok(receipt);
        }
        return Err(InvalidInput);
      }
      if receipt.instance !in cells { return Err(InvalidInput); }
      var c := cells[receipt.instance];
      if !(c.scope == receipt.scope && c.lifecycle == Managed && c.revision == receipt.confirmed
           && c.applied == Some(request.spec) && request.selected)
      {
        return Err(InvalidInput);
      }
      if Busy(c) || receipt.operation in owner { return Err(Duplicate); }
      Enrol(receipt, c.(ops := c.ops[receipt.operation := Operation(
        Kind.Recover, Accepted, "confirm", 1, receipt.confirmed, Some(request.spec), None, map[])]));
      r := Ok(receipt);
    }

    // Journal -----------------------------------------------------------------------------------

    /** Replaces the one row that a journal call is about. */
    method UpdateRow(op: string, after: Operation)
      requires op in owner && owner[op] in cells && op in cells[owner[op]].ops
      modifies this
      ensures owner == old(owner) && receipts == old(receipts)
      ensures cells == old(cells)[owner[op] := old(cells)[owner[op]].(ops := old(cells)[owner[op]].ops[op := after])]
    {
      var c := cells[owner[op]];
      cells := cells[owner[op] := c.(ops := c.ops[op := after])];
    }

    predicate Known(op: string)
      reads this
    {
      op in owner && owner[op] in cells && op in cells[owner[op]].ops
    }

    function Row(op: string): Operation
      requires Known(op)
      reads this
    {
      cells[owner[op]].ops[op]
    }

    method RecordStep(op: string, sequence: nat, attempt: nat, command: Command, resource: string, expects: Expected)
      returns (r: Result<(), Conflict>)
      requires Valid()
      modifies this
      ensures Valid()
      ensures var t := Write(op, Journal.Record(sequence, attempt, command, resource, expects));
        State() == Next(old(State()), t) && r == Done(LedgerStore.Apply(old(State()), t))
    {
      hide DbOk;
      ghost var t := Write(op, Journal.Record(sequence, attempt, command, resource, expects));
      StepKeeps(State(), t);
      if resource == "" || sequence == 0 || attempt == 0 { return Err(InvalidInput); }
      if !Known(op) { return Err(Missing); }
      var parent := Row(op);
      if parent.attempt != attempt || parent.status !in {Accepted, Executing} { return Err(Missing); }
      var last := FindLargest(parent.steps.Keys);
      if sequence != last + 1 { return Err(InvalidInput); }
      if last in parent.steps && parent.steps[last].outcome.None? { return Err(InvalidInput); }
      UpdateRow(op, parent.(steps := parent.steps[sequence := Step(attempt, command, resource, expects, None)]));
      r := Ok(());
    }

    method FinishStep(op: string, sequence: nat, outcome: StepOutcome) returns (r: Result<(), Conflict>)
      requires Valid()
      modifies this
      ensures Valid()
      ensures var t := Write(op, Journal.Finish(sequence, outcome));
        State() == Next(old(State()), t) && r == Done(LedgerStore.Apply(old(State()), t))
    {
      hide DbOk;
      StepKeeps(State(), Write(op, Journal.Finish(sequence, outcome)));
      if sequence == 0 { return Err(InvalidInput); }
      if !Known(op) || sequence !in Row(op).steps || Row(op).steps[sequence].outcome.Some? { return Err(Missing); }
      UpdateRow(op, Journal.Closed(Row(op), sequence, outcome));
      r := Ok(());
    }

    method Retry(op: string, phase: string) returns (r: Result<nat, Conflict>)
      requires Valid()
      modifies this
      ensures Valid()
      ensures var t := Write(op, Journal.Retry(phase));
        && State() == Next(old(State()), t)
        && (r.Ok? <==> LedgerStore.Apply(old(State()), t).Ok?)
        && (r.Ok? ==> Known(op) && Row(op).attempt == r.value && Row(op).status == Executing)
        && (r.Err? ==> LedgerStore.Apply(old(State()), t) == Err(r.error))
    {
      hide DbOk;
      StepKeeps(State(), Write(op, Journal.Retry(phase)));
      if phase == "" { return Err(InvalidInput); }
      if !Known(op) || !Undecided(Row(op).status) { return Err(InvalidLifecycle); }
      var operation := Row(op);
      if exists k :: k in operation.steps && operation.steps[k].outcome.None? { return Err(InvalidLifecycle); }
      var attempt := operation.attempt + 1;
      UpdateRow(op, operation.(attempt := attempt, status := Executing, phase := phase));
      r := Ok(attempt);
    }

    method SetStatus(op: string, status: Status, phase: string) returns (r: Result<(), Conflict>)
      requires Valid() && !Terminal(status)
      modifies this
      ensures Valid()
      ensures var t := Write(op, Journal.SetStatus(status, phase));
        State() == Next(old(State()), t) && r == Done(LedgerStore.Apply(old(State()), t))
    {
      hide DbOk;
      StepKeeps(State(), Write(op, Journal.SetStatus(status, phase)));
      if phase == "" { return Err(InvalidInput); }
      if !Known(op) || Terminal(Row(op).status) { return Err(InvalidLifecycle); }
      UpdateRow(op, Row(op).(status := status, phase := phase));
      r := Ok(());
    }

    /** Marks what was executing as unknown and lists what needs a decision. */
    method RecoverOnStartup() returns (unresolved: set<string>)
      requires Valid()
      modifies this
      ensures Valid() && State() == Next(old(State()), LedgerStore.Restart)
      ensures unresolved == Unfinished() && forall op | op in unresolved :: Row(op).status != Executing
    {
      hide DbOk;
      StepKeeps(State(), LedgerStore.Restart);
      cells := map i | i in cells :: RestartCell(cells[i]);
      unresolved := Unfinished();
    }

    /** Operations that still need a decision or an end. */
    function Unfinished(): (ops: set<string>)
      reads this
      ensures forall op | op in ops :: Known(op)
    {
      set op | op in owner && Known(op) && Unresolved(cells[owner[op]].ops[op])
    }

    method ReconcileStep(op: string, sequence: nat, outcome: StepOutcome) returns (r: Result<(), Conflict>)
      requires Valid()
      modifies this
      ensures Valid()
      ensures var t := Write(op, Journal.Reconcile(sequence, outcome));
        State() == Next(old(State()), t) && r == Done(LedgerStore.Apply(old(State()), t))
    {
      hide DbOk;
      StepKeeps(State(), Write(op, Journal.Reconcile(sequence, outcome)));
      if sequence == 0 { return Err(InvalidInput); }
      if !Known(op) { return Err(Missing); }
      var operation := Row(op);
      if !Undecided(operation.status) { return Err(InvalidInput); }
      if sequence !in operation.steps { return Err(Missing); }
      if operation.steps[sequence].outcome !in {None, Some(StepUnknown)} { return Err(InvalidInput); }
      UpdateRow(op, Journal.Closed(operation, sequence, outcome));
      r := Ok(());
    }

    method AbandonVerified(op: string, attempt: nat) returns (r: Result<(), Conflict>)
      requires Valid()
      modifies this
      ensures Valid()
      ensures var t := Write(op, Journal.Abandon(attempt));
        State() == Next(old(State()), t) && r == Done(LedgerStore.Apply(old(State()), t))
    {
      hide DbOk;
      StepKeeps(State(), Write(op, Journal.Abandon(attempt)));
      if !Known(op) { return Err(if attempt == 0 then InvalidInput else Missing); }
      var operation := Row(op);
      if operation.kind == Delete || operation.attempt != attempt || !Undecided(operation.status) {
        return Err(InvalidInput);
      }
      if exists k :: k in operation.steps && operation.steps[k].outcome in {None, Some(StepUnknown)} {
        return Err(InvalidInput);
      }
      UpdateRow(op, operation.(status := Abandoned, phase := "abandoned"));
      r := Ok(());
    }

    // Port changes --------------------------------------------------------------------------------

    method ConfirmPortRecovery(receipt: Receipt, candidate: nat, ports: Proposal, ghost refused: set<u16>)
      returns (r: Result<nat, Conflict>)
      requires Valid() && Allowed(State(), ConfirmOther(receipt, candidate, ports, refused))
      modifies this
      ensures Valid()
      ensures var t := ConfirmOther(receipt, candidate, ports, refused);
        && State() == Next(old(State()), t)
        && (r.Ok? <==> LedgerStore.Apply(old(State()), t).Ok?)
        && (r.Ok? ==> r.value == candidate + 1)
        && (r.Err? ==> LedgerStore.Apply(old(State()), t) == Err(r.error))
    {
      hide DbOk, Allowed, Taken, Hold, Acceptable, ToMap, Refused, Unreserved, NewIds;
      StepKeeps(State(), ConfirmOther(receipt, candidate, ports, refused));
      var key := (receipt.scope, receipt.request);
      var op := receipt.operation;
      if !(receipt.instance in cells && op in cells[receipt.instance].ops
           && cells[receipt.instance].scope == receipt.scope && key in receipts && receipts[key].operation == op
           && receipts[key].hash == receipt.hash && receipts[key].confirmed == receipt.confirmed)
      {
        return Err(Backend);
      }
      var c := cells[receipt.instance];
      var confirmed := ConfirmCell(receipt.instance, op, candidate, ports);
      if confirmed.Err? { return Err(confirmed.error); }
      cells := cells[receipt.instance := confirmed.value];
      r := Ok(candidate + 1);
    }

    /** The checks and row inserts of one confirmation. */
    method ConfirmCell(instance: string, op: string, candidate: nat, ports: Proposal) returns (r: Result<Cell, Conflict>)
      requires Valid() && instance in cells && op in cells[instance].ops
      ensures r == ConfirmPorts(cells[instance], Taken(State(), cells[instance].scope, instance), op, candidate, ports)
    {
      hide DbOk, Taken, Hold, Acceptable, ToMap, Refused, Unreserved, NewIds;
      var c := cells[instance];
      var o := c.ops[op];
      if c.lifecycle != Managed || c.revision != o.expected { return Err(Backend); }
      if !(Creates(o.kind) || o.kind == EditPort) || !Undecided(o.status) || o.newSpec != Some(candidate) {
        return Err(InvalidInput);
      }
      var base := if op in c.pending then c.pending[op].base else o.oldSpec.GetOr(candidate);
      var listed := if op in c.pending then c.pending[op].listed else {};
      var next := CheckPorts(Ports(c, candidate), ports);
      if next.Err? { return Err(InvalidInput); }
      var after := next.value;
      if candidate + 1 in c.specs { return Err(Duplicate); }
      assert Distinct(after) by { AcceptableMoves(Ports(c, candidate), ports); }
      var ok, held, ids := HoldUnreserved(c.reservations, Taken(Db(cells, owner, receipts), c.scope, instance), after, candidate + 1);
      if !ok { return Err(Duplicate); }
      r := Ok(c.(
        specs := c.specs[candidate + 1 := after],
        ops := c.ops[op := o.(oldSpec := Some(base), newSpec := Some(candidate + 1),
                              status := AwaitingDecision, phase := "confirmed_ports")],
        reservations := held,
        pending := c.pending[op := Pending(base, candidate + 1, PortsHash(after), listed + ids)]));
    }

    /** Whether the last step is the one that saw this container. */
    method LastSaw(o: Operation, container: string, expected: Expected) returns (saw: bool)
      ensures saw <==> Saw(o, container, expected)
    {
      if o.steps == map[] { return false; }
      var last := FindLargest(o.steps.Keys);
      LargestIs(o.steps.Keys);
      saw := o.steps[last] == Step(o.attempt, Observe, container, expected, Some(StepSucceeded));
    }

    /** Settles the bindings of a pending change; shared by completion and restore. */
    method FinishChange(op: string, container: string, restore: bool, published: bool) returns (r: Result<(), Conflict>)
      requires Valid()
      modifies this
      ensures Valid()
      ensures var t := Settle(op, container, restore, published);
        State() == Next(old(State()), t) && r == Done(LedgerStore.Apply(old(State()), t))
    {
      hide DbOk, Hex64, Saw, Settled, EachReservedOnce, MayBeReady, MarkReady;
      StepKeeps(State(), Settle(op, container, restore, published));
      if !Hex64(container) { return Err(InvalidInput); }
      if op !in owner || owner[op] !in cells { return Err(Backend); }
      var finished := FinishCell(cells[owner[op]], op, container, restore, published);
      if finished.Err? { return Err(finished.error); }
      cells := cells[owner[op] := finished.value];
      r := Ok(());
    }

    method FinishCell(c: Cell, op: string, container: string, restore: bool, published: bool)
      returns (r: Result<Cell, Conflict>)
      requires Hex64(container)
      ensures r == PortEdits.FinishChange(c, op, container, restore, published)
    {
      hide Hex64, Saw, EachReservedOnce, MayBeReady, Settled;
      if op !in c.pending || op !in c.ops || !(c.ops[op].kind == EditPort || Creates(c.ops[op].kind))
        || c.revision != c.ops[op].expected
      {
        return Err(Backend);
      }
      var o, p := c.ops[op], c.pending[op];
      var ready, target := o.kind != EditPort, Target(p, restore);
      if !Settleable(c, op, restore) { return Err(InvalidInput); }
      var saw := LastSaw(o, container, if ready then ContainerRunning else ContainerStopped);
      if !saw || !published { return Err(InvalidInput); }
      var before, after := Ports(c, p.base), Ports(c, target);
      if !restore && PortsHash(after) != p.hash { return Err(InvalidInput); }
      if !EachReservedOnce(c.reservations, after) { return Err(InvalidInput); }
      var rs := SettleRows(c.reservations, p.listed, before, after);
      var storage := c.storage;
      if ready {
        if !MayBeReady(c.storage) { return Err(InvalidInput); }
        storage := MarkEach(c.storage, ReadyObserved);
      }
      r := Ok(c.(
        revision := c.revision + 1, applied := Some(target), reservations := rs, storage := storage,
        ops := c.ops[op := o.(status := if restore then Abandoned else Succeeded,
                              phase := if ready then "ready" else "stopped")]));
    }

    /** The three reservation updates of a settlement, in their order. */
    method SettleRows(rs: Reservations, listed: set<ReservationId>, before: Bindings, after: Bindings)
      returns (settled: Reservations)
      ensures settled == Settled(rs, listed, before, after)
    {
      settled := ReleaseEach(rs, before, after);
      settled := map id | id in settled ::
        if id in listed && settled[id].status == Held then settled[id].(status := Committed) else settled[id];
      settled := map id | id in settled ::
        if Active(settled[id]) && !Occupies(after, settled[id].at) then Release(settled[id]) else settled[id];
    }

    // Creation ------------------------------------------------------------------------------------

    method PutCell(instance: string, c: Cell)
      modifies this
      ensures State() == old(State()).(cells := old(cells)[instance := c])
    {
      cells := cells[instance := c];
    }

    method RecordBindMaterialization(op: string, slot: string, identity: string, evidence: string)
      returns (r: Result<(), Conflict>)
      requires Valid()
      modifies this
      ensures Valid()
      ensures var t := BindPresent(op, slot, identity, evidence);
        State() == Next(old(State()), t) && r == Done(LedgerStore.Apply(old(State()), t))
    {
      hide DbOk, LowerHex64;
      StepKeeps(State(), BindPresent(op, slot, identity, evidence));
      if !LowerHex64(evidence) { return Err(InvalidInput); }
      if !(op in owner && owner[op] in cells) || op !in cells[owner[op]].ops { return Err(Missing); }
      var c := cells[owner[op]];
      if !Creates(c.ops[op].kind) || c.ops[op].status != Executing { return Err(InvalidInput); }
      if slot !in c.storage { return Err(Missing); }
      var saved := c.storage[slot];
      if saved.how != Bind || saved.presence != NotMaterialized || saved.identity != identity { return Err(InvalidInput); }
      PutCell(owner[op], c.(storage := c.storage[slot := saved.(evidence := evidence, presence := Present)]));
      r := Ok(());
    }

    /** Whether the last step of this attempt saw the created container's state, and which step that is. */
    method LastSawState(o: Operation) returns (last: nat, saw: bool)
      ensures last == Journal.Last(o.steps) && (saw <==> SawState(o))
    {
      last := FindLargest(o.steps.Keys);
      if o.steps == map[] { return last, false; }
      LargestIs(o.steps.Keys);
      var step := o.steps[last];
      saw := step.command == Observe && step.expected == StateObserved
        && step.outcome == Some(StepSucceeded) && step.attempt == o.attempt;
    }

    method PrecedesLast(steps: set<nat>, o: Operation) returns (ok: bool)
      ensures ok <==> Precedes(steps, o)
    {
      if steps == {} { return false; }
      var latest := FindLargest(steps);
      var last := FindLargest(o.steps.Keys);
      ok := latest < last;
    }

    method MarkMayHaveInitialized(op: string) returns (r: Result<(), Conflict>)
      requires Valid()
      modifies this
      ensures Valid()
      ensures State() == Next(old(State()), MarkStarted(op))
      ensures r == Done(LedgerStore.Apply(old(State()), MarkStarted(op)))
    {
      hide DbOk, SawState, Precedes, Markable;
      StepKeeps(State(), MarkStarted(op));
      if !(op in owner && owner[op] in cells) || op !in cells[owner[op]].ops { return Err(Missing); }
      var c := cells[owner[op]];
      var o := c.ops[op];
      if !Creates(o.kind) || o.status != Executing { return Err(InvalidInput); }
      if o.steps == map[] { return Err(Missing); }
      var last, saw := LastSawState(o);
      if !saw { return Err(InvalidInput); }
      var created := PrecedesLast(Succeeding(o, ComposeCreate), o);
      if !created || !Markable(c.storage) { return Err(InvalidInput); }
      var storage := MarkEach(c.storage, MayHaveInitialized);
      PutCell(owner[op], c.(storage := storage));
      r := Ok(());
    }

    /** Before a recovered start: whatever is present may already hold data. */
    method OverwriteInitialization(op: string)
      requires Valid() && Allowed(State(), OverwriteStarted(op))
      modifies this
      ensures Valid() && State() == Next(old(State()), OverwriteStarted(op))
    {
      hide DbOk;
      StepKeeps(State(), OverwriteStarted(op));
      var c := cells[owner[op]];
      PutCell(owner[op], c.(storage := Overwritten(c.storage)));
    }

    method CompleteReady(op: string, container: string) returns (r: Result<(), Conflict>)
      requires Valid()
      modifies this
      ensures Valid()
      ensures State() == Next(old(State()), FinishCreate(op, container))
      ensures r == Done(LedgerStore.Apply(old(State()), FinishCreate(op, container)))
    {
      hide DbOk, Hex64;
      StepKeeps(State(), FinishCreate(op, container));
      if !Hex64(container) { return Err(InvalidInput); }
      if !(op in owner && owner[op] in cells) { return Err(Missing); }
      var ready := ReadyCell(cells[owner[op]], op, container);
      if ready.Err? { return Err(ready.error); }
      PutCell(owner[op], ready.value);
      r := Ok(());
    }

    method ReadyCell(c: Cell, op: string, container: string) returns (r: Result<Cell, Conflict>)
      requires Hex64(container)
      ensures r == InstanceSteps.CompleteReady(c, op, container)
    {
      hide Hex64, Precedes, MayBeReady;
      if op !in c.ops { return Err(Missing); }
      var o := c.ops[op];
      if !Creates(o.kind) || o.status != Executing || o.newSpec != Some(1) { return Err(InvalidInput); }
      if o.steps == map[] { return Err(Missing); }
      var last, saw := LastSawState(o);
      LargestIs(o.steps.Keys);
      if !saw || o.steps[last].resource != container { return Err(InvalidInput); }
      var recovered := o.phase == "reconcile";
      var started := PrecedesLast(if recovered then Issued(o, ComposeStart) else Succeeding(o, ComposeStart), o);
      if !started || !MayBeReady(c.storage) { return Err(InvalidInput); }
      var storage := MarkEach(c.storage, ReadyObserved);
      r := Ok(c.(storage := storage, applied := Some(1), ops := c.ops[op := o.(status := Succeeded, phase := "ready")]));
    }

    // Lifecycle, recovery and deletion --------------------------------------------------------------

    method CompleteLifecycle(op: string, container: string, runtime: Runtime, observed: bool) returns (r: Result<(), Conflict>)
      requires Valid() && Allowed(State(), FinishLifecycle(op, container, runtime, observed))
      modifies this
      ensures Valid()
      ensures var t := FinishLifecycle(op, container, runtime, observed);
        State() == Next(old(State()), t) && r == Done(LedgerStore.Apply(old(State()), t))
    {
      hide DbOk, Hex64;
      StepKeeps(State(), FinishLifecycle(op, container, runtime, observed));
      if !Hex64(container) || LifecyclePhase(runtime).None? { return Err(InvalidInput); }
      if !(op in owner && owner[op] in cells) || op !in cells[owner[op]].ops { return Err(Missing); }
      var c := cells[owner[op]];
      var o := c.ops[op];
      if o.status != Executing || c.lifecycle != Managed || !Lifecycles(o.kind) || o.oldSpec != c.applied {
        return Err(InvalidInput);
      }
      if !observed { return Err(Missing); }
      UpdateRow(op, o.(status := Succeeded, phase := LifecyclePhase(runtime).value));
      r := Ok(());
    }

    method CompleteExternalRecovery(op: string, container: string, runtime: Runtime, published: bool)
      returns (r: Result<(), Conflict>)
      requires Valid()
      modifies this
      ensures Valid()
      ensures var t := FinishRecovery(op, container, runtime, published);
        State() == Next(old(State()), t) && r == Done(LedgerStore.Apply(old(State()), t))
    {
      hide DbOk, Hex64, Saw;
      StepKeeps(State(), FinishRecovery(op, container, runtime, published));
      if !Hex64(container) || runtime in {Gone, Runtime.Unknown} { return Err(InvalidInput); }
      if !(op in owner && owner[op] in cells) || op !in cells[owner[op]].ops { return Err(InvalidInput); }
      var c := cells[owner[op]];
      var o := c.ops[op];
      if !(o.kind == Kind.Recover && o.status == Executing && c.lifecycle == Managed && c.revision == o.expected
           && c.applied == o.oldSpec && c.applied.Some? && published)
      {
        return Err(InvalidInput);
      }
      var saw := LastSaw(o, container, StateObserved);
      if !saw { return Err(InvalidInput); }
      PutCell(owner[op], c.(revision := c.revision + 1,
                            ops := c.ops[op := o.(status := Succeeded, phase := "restored")]));
      r := Ok(());
    }

    method CompleteDelete(receipt: Receipt, checks: seq<StorageCheck>) returns (r: Result<(), Conflict>)
      requires Valid()
      modifies this
      ensures Valid()
      ensures State() == Next(old(State()), FinishDelete(receipt, checks))
      ensures r == Done(LedgerStore.Apply(old(State()), FinishDelete(receipt, checks)))
    {
      hide DbOk;
      StepKeeps(State(), FinishDelete(receipt, checks));
      var key := (receipt.scope, receipt.request);
      if key !in receipts || receipts[key] != receipt { return Err(InvalidInput); }
      if receipt.instance !in cells { return Err(Missing); }
      var deleted := DeleteCell(cells[receipt.instance], receipt.scope, receipt.operation, checks);
      if deleted.Err? { return Err(deleted.error); }
      PutCell(receipt.instance, deleted.value);
      r := Ok(());
    }

    method DeleteCell(c: Cell, scope: string, op: string, checks: seq<StorageCheck>) returns (r: Result<Cell, Conflict>)
      ensures r == InstanceSteps.CompleteDelete(c, scope, op, checks)
    {
      hide ChecksAll, Retain;
      if op !in c.ops { return Err(Missing); }
      var o := c.ops[op];
      if o.kind != Delete || o.status != Executing || c.scope != scope || c.lifecycle != Retiring
        || o.expected + 1 != c.revision || (exists k :: k in o.steps && o.steps[k].outcome.None?)
      {
        return Err(InvalidInput);
      }
      var all := CountChecks(c.storage, checks);
      if !all { return Err(InvalidInput); }
      var storage := RetainEach(c.storage, checks);
      r := Ok(c.(storage := storage, reservations := ReleaseAll(c.reservations), lifecycle := Retired,
                 revision := c.revision + 1, ops := c.ops[op := o.(status := Succeeded, phase := "retired")]));
    }

    // Storage and names -----------------------------------------------------------------------------

    method SetStoragePresence(instance: string, slot: string, presence: Presence) returns (r: Result<(), Conflict>)
      requires Valid()
      modifies this
      ensures Valid()
      ensures var t := SetSeen(instance, slot, presence);
        State() == Next(old(State()), t) && r == Done(LedgerStore.Apply(old(State()), t))
    {
      hide DbOk;
      StepKeeps(State(), SetSeen(instance, slot, presence));
      if instance !in cells || slot !in cells[instance].storage { return Err(Missing); }
      var c := cells[instance];
      if !MayFollow(c.storage[slot].presence, presence) { return Err(InvalidInput); }
      PutCell(instance, c.(storage := c.storage[slot := c.storage[slot].(presence := presence)]));
      r := Ok(());
    }

    method UpdateInstance(instance: string, expected: nat) returns (r: Result<(), Conflict>)
      requires Valid()
      modifies this
      ensures Valid()
      ensures State() == Next(old(State()), Retitle(instance, expected))
      ensures r == Done(LedgerStore.Apply(old(State()), Retitle(instance, expected)))
    {
      hide DbOk;
      StepKeeps(State(), Retitle(instance, expected));
      if instance !in cells { return Err(Missing); }
      var c := cells[instance];
      if c.revision != expected { return Err(StaleRevision); }
      if c.lifecycle != Managed { return Err(InvalidLifecycle); }
      if Busy(c) { return Err(UnresolvedOperation); }
      PutCell(instance, c.(revision := c.revision + 1));
      r := Ok(());
    }
  }
}
