/** What an accepted request writes, and what it must have found: edits, other ports, recoveries, renames, removals. */
module LedgerRequests {
  import opened Wrappers
  import opened LedgerTypes
  import opened PortEdits
  import opened CellInvariant
  import opened PortEditProofs
  import opened InstanceSteps
  import opened LedgerStore
  import opened StoreProofs

  /** Reservations only grew, by held ones of one revision, each for a slot of these bindings that none had reserved. */
  ghost predicate HeldFor(before: Reservations, after: Reservations, ports: Bindings, revision: nat) {
    && (forall id | id in before :: id in after && after[id] == before[id])
    && (forall id | id in after && id !in before ::
          id.Revised? && id.revision == revision && id.slot in ports
          && after[id] == Reservation(ports[id.slot].at, Held) && !HasActive(before, ports[id.slot].at))
  }

  lemma HoldIsHeldFor(rs: Reservations, taken: set<Endpoint>, after: Bindings, slots: set<string>, revision: nat)
    requires slots <= after.Keys && !Refused(rs, taken, after, slots, revision)
    ensures HeldFor(rs, Hold(rs, after, slots, revision), after, revision)
  {
    forall id | id in NewIds(slots, revision) ensures id !in rs && !HasActive(rs, after[id.slot].at) {
      assert id.slot in slots;
    }
  }

  /**
   * An edit is accepted only for an idle, managed instance of its scope that is still as it was shown, and
   * writes one candidate above every revision, one accepted row and held reservations; nothing takes effect.
   */
  lemma EditAsRequested(c: Cell, scope: string, taken: set<Endpoint>, op: string, request: EditRequest)
    requires BeginEdit(c, scope, taken, op, request).Ok?
    ensures c.scope == scope && c.lifecycle == Managed && c.revision == request.expected && c.applied == Some(request.base)
    ensures forall other | other in c.ops :: Terminal(c.ops[other].status)
    ensures Acceptable(Ports(c, request.base), request.ports)
    ensures var d, candidate, ports := BeginEdit(c, scope, taken, op, request).value, Latest(c) + 1, ToMap(request.ports);
      && d.specs == c.specs[candidate := ports] && d.storage == c.storage && d.applied == c.applied
      && d.revision == c.revision && d.lifecycle == Managed && d.scope == scope && d.target == c.target
      && (forall other | other in c.ops && other != op :: other in d.ops && d.ops[other] == c.ops[other])
      && op in d.ops && d.ops[op] == Operation(
           EditPort, Accepted, "accepted", 1, request.expected, Some(request.base), Some(candidate), map[])
      && HeldFor(c.reservations, d.reservations, ports, candidate)
  {
    hide Acceptable, ToMap, Hold, Refused, HeldFor, Latest;
    HoldIsHeldFor(c.reservations, taken, ToMap(request.ports), Changed(Ports(c, request.base), ToMap(request.ports)),
                  Latest(c) + 1);
  }

  /** A request key used for another edit is refused as a duplicate and changes nothing. */
  lemma ReusedEditRefused(db: Db, receipt: Receipt, request: EditRequest)
    requires ValidEdit(receipt, request) && (receipt.scope, receipt.request) in db.receipts
    requires var prior := db.receipts[(receipt.scope, receipt.request)];
      prior.instance != receipt.instance || prior.operation != receipt.operation || prior.hash != receipt.hash
    ensures AcceptEdit(db, receipt, request) == Err(Duplicate) && Next(db, EditPorts(receipt, request)) == db
  {
    hide ValidEdit;
  }

  /**
   * Other ports are confirmed only for the undecided change of the stored receipt, at its own candidate; they
   * become the next candidate, its row waits for a decision with all its steps, and nothing takes effect.
   */
  lemma ConfirmedAsRequested(db: Db, receipt: Receipt, candidate: nat, ports: Proposal)
    requires Confirm(db, receipt, candidate, ports).Ok?
    ensures (receipt.scope, receipt.request) in db.receipts
    ensures var stored := db.receipts[(receipt.scope, receipt.request)];
      stored.operation == receipt.operation && stored.hash == receipt.hash && stored.confirmed == receipt.confirmed
    ensures receipt.instance in db.cells && db.cells[receipt.instance].scope == receipt.scope
    ensures receipt.operation in db.cells[receipt.instance].ops
    ensures var c, op, next := db.cells[receipt.instance], receipt.operation, Confirm(db, receipt, candidate, ports).value;
      && Undecided(c.ops[op].status) && c.ops[op].newSpec == Some(candidate) && c.revision == c.ops[op].expected
      && Acceptable(Ports(c, candidate), ports) && candidate + 1 !in c.specs
      && receipt.instance in next.cells && next == db.(cells := db.cells[receipt.instance := next.cells[receipt.instance]])
      && var d := next.cells[receipt.instance];
      && op in d.ops && d == c.(specs := c.specs[candidate + 1 := ToMap(ports)], ops := c.ops[op := d.ops[op]],
                                reservations := d.reservations, pending := d.pending)
      && d.ops[op] == c.ops[op].(status := AwaitingDecision, phase := "confirmed_ports",
                                 oldSpec := d.ops[op].oldSpec, newSpec := Some(candidate + 1))
      && HeldFor(c.reservations, d.reservations, ToMap(ports), candidate + 1)
  {
    hide Acceptable, ToMap, Hold, Refused, HeldFor, Taken;
    var c := db.cells[receipt.instance];
    HoldIsHeldFor(c.reservations, Taken(db, c.scope, receipt.instance), ToMap(ports),
                  Unreserved(c.reservations, ToMap(ports)), candidate + 1);
  }

  /** A finished recovery moves the revision by one and its own row to its end, and nothing else. */
  lemma RecoveredRows(c: Cell, op: string, container: string, runtime: Runtime, published: bool)
    requires CompleteRecovery(c, op, container, runtime, published).Ok?
    ensures op in c.ops && c.revision == c.ops[op].expected
    ensures CompleteRecovery(c, op, container, runtime, published).value
      == c.(revision := c.ops[op].expected + 1,
            ops := c.ops[op := c.ops[op].(status := Succeeded, phase := "restored")])
  {
    hide Hex64, Saw;
  }

  /** A rename is taken only from who saw the current revision of an idle, managed instance. */
  lemma RenamedAsSeen(c: Cell, expected: nat)
    ensures RenameInstance(c, expected).Ok? <==>
      c.revision == expected && c.lifecycle == Managed && forall op | op in c.ops :: Terminal(c.ops[op].status)
    ensures RenameInstance(c, expected).Ok? ==> RenameInstance(c, expected).value == c.(revision := expected + 1)
  {
  }

  /** Only the stored receipt of a deletion can retire its instance, in its own scope. */
  lemma RemovalNeedsReceipt(db: Db, receipt: Receipt, checks: seq<StorageCheck>)
    requires RemoveInstance(db, receipt, checks).Ok?
    ensures (receipt.scope, receipt.request) in db.receipts && db.receipts[(receipt.scope, receipt.request)] == receipt
    ensures receipt.instance in db.cells && receipt.operation in db.cells[receipt.instance].ops
    ensures var c, o := db.cells[receipt.instance], db.cells[receipt.instance].ops[receipt.operation];
      && c.scope == receipt.scope && c.lifecycle == Retiring && o.kind == Delete && o.status == Executing
      && (forall k | k in o.steps :: o.steps[k].outcome.Some?)
  {
    hide ChecksAll, Retain;
  }

  /** Before a recovered start, exactly what is present is marked as possibly holding data. */
  lemma OverwriteMarksPresent(storage: map<string, Allocation>, slot: string)
    requires slot in storage
    ensures Overwritten(storage).Keys == storage.Keys
    ensures storage[slot].presence == Present ==>
      Overwritten(storage)[slot] == storage[slot].(initialization := MayHaveInitialized)
    ensures storage[slot].presence != Present ==> Overwritten(storage)[slot] == storage[slot]
  {
  }
}
