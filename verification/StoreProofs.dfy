/** Every transaction the program issues keeps the whole store sound. */
module StoreProofs {
  import opened Wrappers
  import opened LedgerTypes
  import opened PortEdits
  import opened CellInvariant
  import opened PortEditProofs
  import opened InstanceSteps
  import opened InstanceProofs
  import opened LedgerStore
  import Journal

  // The invariant -----------------------------------------------------------------------------

  ghost predicate CellsOk(db: Db) {
    forall i | i in db.cells :: CellOk(db.cells[i])
  }

  /** Two instances never hold the same endpoint actively. */
  ghost predicate Apart(a: Reservations, b: Reservations) {
    forall x, y | x in a && y in b && Active(a[x]) && Active(b[y]) :: a[x].at != b[y].at
  }

  ghost predicate PortsApart(db: Db) {
    forall i, j | i in db.cells && j in db.cells && i != j && db.cells[i].scope == db.cells[j].scope ::
      Apart(db.cells[i].reservations, db.cells[j].reservations)
  }

  ghost predicate Owned(db: Db) {
    && (forall op | op in db.owner :: db.owner[op] in db.cells && op in db.cells[db.owner[op]].ops)
    && (forall i, op | i in db.cells && op in db.cells[i].ops :: op in db.owner && db.owner[op] == i)
  }

  ghost predicate ReceiptRow(db: Db, key: (string, string)) {
    && key in db.receipts
    && var r := db.receipts[key];
    && key == (r.scope, r.request)
    && r.operation in db.owner && db.owner[r.operation] == r.instance
    && r.instance in db.cells && db.cells[r.instance].scope == r.scope
  }

  predicate SamePlanRow(a: Receipt, b: Receipt) { a.scope == b.scope && a.plan.Some? && a.plan == b.plan }

  /** Receipts and operations correspond one to one, and a plan is confirmed at most once. */
  ghost predicate ReceiptsOk(db: Db) {
    && (forall key | key in db.receipts :: ReceiptRow(db, key))
    && (forall a, b | a in db.receipts && b in db.receipts && a != b ::
          db.receipts[a].operation != db.receipts[b].operation && !SamePlanRow(db.receipts[a], db.receipts[b]))
    && (forall op | op in db.owner :: exists key :: key in db.receipts && db.receipts[key].operation == op)
  }

  predicate ResourcesDiffer(a: map<string, Allocation>, b: map<string, Allocation>) {
    forall s, t | s in a && t in b :: a[s].identity != b[t].identity
  }

  /** Two instances never share a storage resource. */
  ghost predicate ResourcesApart(db: Db) {
    forall i, j | i in db.cells && j in db.cells && i != j :: ResourcesDiffer(db.cells[i].storage, db.cells[j].storage)
  }

  ghost predicate DbOk(db: Db) {
    CellsOk(db) && PortsApart(db) && Owned(db) && ReceiptsOk(db) && ResourcesApart(db)
  }

  /** What the callers of each transaction have established before it. */
  ghost predicate Allowed(db: Db, t: Txn) {
    match t
    case CommitNew(plan) =>
      forall i | 0 <= i < |plan.record.ports| :: plan.record.ports[i].1.at.ip == LOOPBACK
    case AcceptIntent(intent, _) => (Lifecycles(intent.kind) && intent.newSpec.None?) || intent.kind == Delete
    case Write(_, call) => Quiet(call) && !call.Startup?
    case ConfirmOther(receipt, candidate, ports, refused) =>
      receipt.instance in db.cells ==> Inspected(db.cells[receipt.instance], refused, candidate, ports)
    case OverwriteStarted(op) =>
      && op in db.owner && db.owner[op] in db.cells && op in db.cells[db.owner[op]].ops
      && Creates(db.cells[db.owner[op]].ops[op].kind) && db.cells[db.owner[op]].ops[op].status == Executing
    case FinishLifecycle(op, _, _, _) =>
      op in db.owner && db.owner[op] in db.cells && op in db.cells[db.owner[op]].ops ==>
        !Journal.AnyOpen(db.cells[db.owner[op]].ops[op].steps)
    case _ => true
  }

  // One instance changes -------------------------------------------------------------------------

  /** Every endpoint active afterwards was active before, or was not reserved elsewhere. */
  ghost predicate OnlyFree(before: Reservations, after: Reservations, taken: set<Endpoint>) {
    forall id | id in after && Active(after[id]) :: HasActive(before, after[id].at) || after[id].at !in taken
  }

  lemma TakenIs(db: Db, scope: string, except: string, j: string, y: ReservationId)
    requires j in db.cells && j != except && db.cells[j].scope == scope
    requires y in db.cells[j].reservations && Active(db.cells[j].reservations[y])
    ensures db.cells[j].reservations[y].at in Taken(db, scope, except)
  {
  }

  lemma ApartAfter(db: Db, i: string, j: string, after: Reservations)
    requires PortsApart(db) && i in db.cells && j in db.cells && i != j && db.cells[i].scope == db.cells[j].scope
    requires OnlyFree(db.cells[i].reservations, after, Taken(db, db.cells[i].scope, i))
    ensures Apart(after, db.cells[j].reservations) && Apart(db.cells[j].reservations, after)
  {
    var before, other := db.cells[i].reservations, db.cells[j].reservations;
    assert Apart(before, other);
    forall x, y | x in after && y in other && Active(after[x]) && Active(other[y]) ensures after[x].at != other[y].at {
      TakenIs(db, db.cells[i].scope, i, j, y);
      if HasActive(before, after[x].at) {
        var z :| z in before && before[z].at == after[x].at && Active(before[z]);
      }
    }
  }

  lemma UpdatePortsApart(db: Db, i: string, d: Cell)
    requires PortsApart(db) && i in db.cells && d.scope == db.cells[i].scope
    requires OnlyFree(db.cells[i].reservations, d.reservations, Taken(db, d.scope, i))
    ensures PortsApart(db.(cells := db.cells[i := d]))
  {
    hide Apart, OnlyFree;
    forall j | j in db.cells && j != i && db.cells[j].scope == d.scope
      ensures Apart(d.reservations, db.cells[j].reservations) && Apart(db.cells[j].reservations, d.reservations)
    {
      ApartAfter(db, i, j, d.reservations);
    }
  }

  lemma UpdateReceiptsOk(db: Db, i: string, d: Cell)
    requires ReceiptsOk(db) && i in db.cells && d.scope == db.cells[i].scope
    ensures ReceiptsOk(db.(cells := db.cells[i := d]))
  {
    var next := db.(cells := db.cells[i := d]);
    forall key | key in next.receipts ensures ReceiptRow(next, key) {
      assert ReceiptRow(db, key);
    }
  }

  /** The same allocations of the same resources. */
  predicate SameResources(before: map<string, Allocation>, after: map<string, Allocation>) {
    after.Keys == before.Keys && forall slot | slot in before :: after[slot].identity == before[slot].identity
  }

  lemma UpdateResourcesApart(db: Db, i: string, d: Cell)
    requires ResourcesApart(db) && i in db.cells && SameResources(db.cells[i].storage, d.storage)
    ensures ResourcesApart(db.(cells := db.cells[i := d]))
  {
    forall j | j in db.cells && j != i
      ensures ResourcesDiffer(d.storage, db.cells[j].storage) && ResourcesDiffer(db.cells[j].storage, d.storage)
    {
      assert ResourcesDiffer(db.cells[i].storage, db.cells[j].storage);
    }
  }

  lemma InsertResourcesApart(db: Db, i: string, d: Cell)
    requires ResourcesApart(db) && i !in db.cells && forall slot | slot in d.storage :: d.storage[slot].identity !in Used(db)
    ensures ResourcesApart(db.(cells := db.cells[i := d]))
  {
    forall j | j in db.cells
      ensures ResourcesDiffer(d.storage, db.cells[j].storage) && ResourcesDiffer(db.cells[j].storage, d.storage)
    {
      forall t | t in db.cells[j].storage ensures db.cells[j].storage[t].identity in Used(db) {}
    }
  }

  /** Changing one instance without adding operations. */
  lemma UpdateKeeps(db: Db, i: string, d: Cell)
    requires DbOk(db) && i in db.cells && CellOk(d)
    requires d.scope == db.cells[i].scope && d.ops.Keys == db.cells[i].ops.Keys
    requires OnlyFree(db.cells[i].reservations, d.reservations, Taken(db, d.scope, i))
    requires SameResources(db.cells[i].storage, d.storage)
    ensures DbOk(db.(cells := db.cells[i := d]))
  {
    hide CellOk, PortsApart, ReceiptsOk, OnlyFree, ResourcesApart, SameResources;
    UpdatePortsApart(db, i, d);
    UpdateReceiptsOk(db, i, d);
    UpdateResourcesApart(db, i, d);
  }

  lemma SamePortsFree(rs: Reservations, taken: set<Endpoint>)
    ensures OnlyFree(rs, rs, taken)
  {
  }

  // One operation is added ---------------------------------------------------------------------------

  /** The request is new: no receipt has its key, and none confirmed its plan. */
  ghost predicate FirstRequest(db: Db, receipt: Receipt) {
    && (receipt.scope, receipt.request) !in db.receipts
    && (receipt.plan.Some? ==>
          !exists key :: key in db.receipts && HasPlan(db.receipts[key], receipt.scope, receipt.plan.value))
  }

  lemma EnterRow(db: Db, receipt: Receipt, d: Cell, key: (string, string))
    requires ReceiptRow(db, key) && receipt.operation !in db.owner && (receipt.scope, receipt.request) !in db.receipts
    requires d.scope == receipt.scope && (receipt.instance in db.cells ==> db.cells[receipt.instance].scope == d.scope)
    ensures ReceiptRow(WithReceipt(db.(cells := db.cells[receipt.instance := d]), receipt), key)
    ensures db.receipts[key].operation != receipt.operation
  {
  }

  lemma EnterReceiptsOk(db: Db, receipt: Receipt, d: Cell)
    requires ReceiptsOk(db) && receipt.operation !in db.owner && FirstRequest(db, receipt)
    requires d.scope == receipt.scope && (receipt.instance in db.cells ==> db.cells[receipt.instance].scope == d.scope)
    ensures ReceiptsOk(WithReceipt(db.(cells := db.cells[receipt.instance := d]), receipt))
  {
    hide ReceiptRow;
    var next := WithReceipt(db.(cells := db.cells[receipt.instance := d]), receipt);
    var key := (receipt.scope, receipt.request);
    assert ReceiptRow(next, key) by { OwnRow(db, receipt, d); }
    forall a | a in db.receipts
      ensures ReceiptRow(next, a) && db.receipts[a].operation != receipt.operation
      ensures !SamePlanRow(db.receipts[a], receipt) && !SamePlanRow(receipt, db.receipts[a])
    {
      EnterRow(db, receipt, d, a);
      if receipt.plan.Some? { assert !HasPlan(db.receipts[a], receipt.scope, receipt.plan.value); }
    }
    forall op | op in next.owner ensures exists k :: k in next.receipts && next.receipts[k].operation == op {
      if op == receipt.operation {
        assert next.receipts[key].operation == op;
      } else {
        var k :| k in db.receipts && db.receipts[k].operation == op;
        assert next.receipts[k].operation == op;
      }
    }
  }

  lemma OwnRow(db: Db, receipt: Receipt, d: Cell)
    requires d.scope == receipt.scope
    ensures ReceiptRow(WithReceipt(db.(cells := db.cells[receipt.instance := d]), receipt),
                       (receipt.scope, receipt.request))
  {
  }

  lemma EnterOwned(db: Db, receipt: Receipt, d: Cell)
    requires Owned(db) && receipt.operation !in db.owner
    requires d.ops.Keys == (if receipt.instance in db.cells then db.cells[receipt.instance].ops.Keys else {}) + {receipt.operation}
    ensures Owned(WithReceipt(db.(cells := db.cells[receipt.instance := d]), receipt))
  {
  }

  lemma FreeFromTaken(db: Db, i: string, d: Cell)
    requires forall id | id in d.reservations && Active(d.reservations[id]) :: d.reservations[id].at !in Taken(db, d.scope, i)
    requires PortsApart(db) && i !in db.cells
    ensures PortsApart(db.(cells := db.cells[i := d]))
  {
    hide Taken;
    forall j | j in db.cells && db.cells[j].scope == d.scope
      ensures Apart(d.reservations, db.cells[j].reservations) && Apart(db.cells[j].reservations, d.reservations)
    {
      forall y | y in db.cells[j].reservations && Active(db.cells[j].reservations[y])
        ensures db.cells[j].reservations[y].at in Taken(db, d.scope, i)
      {
        TakenIs(db, d.scope, i, j, y);
      }
    }
  }

  lemma EnterKeeps(db: Db, receipt: Receipt, d: Cell)
    requires DbOk(db) && CellOk(d) && receipt.instance in db.cells && FirstRequest(db, receipt)
    requires receipt.operation !in db.owner && d.scope == receipt.scope == db.cells[receipt.instance].scope
    requires d.ops.Keys == db.cells[receipt.instance].ops.Keys + {receipt.operation}
    requires OnlyFree(db.cells[receipt.instance].reservations, d.reservations, Taken(db, d.scope, receipt.instance))
    requires SameResources(db.cells[receipt.instance].storage, d.storage)
    ensures DbOk(WithReceipt(db.(cells := db.cells[receipt.instance := d]), receipt))
  {
    hide CellOk, PortsApart, ReceiptsOk, Owned, OnlyFree, ResourcesApart, SameResources;
    UpdatePortsApart(db, receipt.instance, d);
    UpdateResourcesApart(db, receipt.instance, d);
    EnterReceiptsOk(db, receipt, d);
    EnterOwned(db, receipt, d);
    SameCellsApart(db.(cells := db.cells[receipt.instance := d]), receipt);
  }

  lemma SameCellsApart(db: Db, receipt: Receipt)
    requires PortsApart(db) && ResourcesApart(db)
    ensures PortsApart(WithReceipt(db, receipt)) && ResourcesApart(WithReceipt(db, receipt))
  {
  }

  lemma NoReceiptFound(db: Db, receipt: Receipt)
    ensures FindReceipt(db, receipt.scope, receipt.request, receipt.plan).None? <==> FirstRequest(db, receipt)
  {
  }

  lemma InsertKeeps(db: Db, receipt: Receipt, d: Cell)
    requires DbOk(db) && CellOk(d) && receipt.instance !in db.cells && FirstRequest(db, receipt)
    requires receipt.operation !in db.owner && d.scope == receipt.scope && d.ops.Keys == {receipt.operation}
    requires forall id | id in d.reservations && Active(d.reservations[id]) ::
      d.reservations[id].at !in Taken(db, d.scope, receipt.instance)
    requires forall slot | slot in d.storage :: d.storage[slot].identity !in Used(db)
    ensures DbOk(WithReceipt(db.(cells := db.cells[receipt.instance := d]), receipt))
  {
    hide CellOk, PortsApart, ReceiptsOk, Owned, FirstRequest, Taken, Used, ResourcesApart;
    FreeFromTaken(db, receipt.instance, d);
    InsertResourcesApart(db, receipt.instance, d);
    EnterReceiptsOk(db, receipt, d);
    EnterOwned(db, receipt, d);
    SameCellsApart(db.(cells := db.cells[receipt.instance := d]), receipt);
  }

  lemma CommitNewKeeps(db: Db, p: PlanCommit)
    requires DbOk(db) && Allowed(db, CommitNew(p)) && CommitPlan(db, p).Ok?
    ensures DbOk(CommitPlan(db, p).value.0)
  {
    hide CellOk, DbOk, PortsInsertable, StorageInsertable, ValidPlanCommit, Taken, Used, FindReceipt, ToMap, CloneRefused,
      FirstRequest, FirstReservations;
    NoReceiptFound(db, p.receipt);
    if FindReceipt(db, p.receipt.scope, p.receipt.request, p.receipt.plan).None? {
      PlanCommitNames(p);
      var taken := Taken(db, p.record.scope, p.record.id);
      NewCellKeeps(p.record, taken, Used(db), p.intent.id, p.intent.kind, p.intent.phase);
      FirstPortsShaped(p.record, taken);
      NewPortsFree(ToMap(p.record.ports), taken);
      AllocationsAreDistinct(p.record.how, p.record.storage, Used(db));
      InsertKeeps(db, p.receipt, NewCell(p.record, p.intent.id, p.intent.kind, p.intent.phase));
    }
  }

  lemma PlanCommitNames(p: PlanCommit)
    requires ValidPlanCommit(p)
    ensures p.receipt.scope == p.record.scope && p.receipt.instance == p.record.id && p.receipt.operation == p.intent.id
    ensures Creates(p.intent.kind) && p.receipt.plan.Some?
  {
  }

  lemma NewPortsFree(ports: Bindings, taken: set<Endpoint>)
    requires forall slot | slot in ports :: ports[slot].at !in taken
    ensures forall id | id in FirstReservations(ports) :: FirstReservations(ports)[id].at !in taken
  {
  }

  lemma AcceptIntentKeeps(db: Db, intent: Intent, receipt: Receipt)
    requires DbOk(db) && Allowed(db, AcceptIntent(intent, receipt)) && Accept(db, intent, receipt).Ok?
    ensures DbOk(Accept(db, intent, receipt).value.0)
  {
    hide CellOk, PortsApart, ReceiptsOk, Taken, FindReceipt, Hex64, Busy;
    NoReceiptFound(db, receipt);
    if FindReceipt(db, receipt.scope, receipt.request, receipt.plan).None? {
      var c := db.cells[intent.instance];
      assert intent.id !in c.ops;
      AdmitKeeps(c, intent);
      SamePortsFree(c.reservations, Taken(db, c.scope, intent.instance));
      EnterKeeps(db, receipt, Admitted(c, intent));
    }
  }

  lemma HoldFree(rs: Reservations, taken: set<Endpoint>, after: Bindings, slots: set<string>, revision: nat)
    requires slots <= after.Keys && !Refused(rs, taken, after, slots, revision)
    ensures OnlyFree(rs, Hold(rs, after, slots, revision), taken)
  {
    HoldIs(rs, taken, after, slots, revision);
    var held := Hold(rs, after, slots, revision);
    forall id | id in held && Active(held[id]) ensures HasActive(rs, held[id].at) || held[id].at !in taken {
      if id in rs { assert rs[id] == held[id]; }
    }
  }

  lemma EditPortsKeeps(db: Db, receipt: Receipt, request: EditRequest)
    requires DbOk(db) && AcceptEdit(db, receipt, request).Ok?
    ensures DbOk(AcceptEdit(db, receipt, request).value.0)
  {
    hide CellOk, PortsApart, ReceiptsOk, Taken, Hex64, Busy, Refused, Acceptable, ToMap, Hold, CommittedAt, OnlyFree;
    if (receipt.scope, receipt.request) !in db.receipts {
      var c := db.cells[receipt.instance];
      var taken := Taken(db, c.scope, receipt.instance);
      assert BeginEdit(c, receipt.scope, taken, receipt.operation, request).Ok?;
      var after := ToMap(request.ports);
      BeginKeeps(c, receipt.scope, taken, receipt.operation, request);
      HoldFree(c.reservations, taken, after, Changed(Ports(c, request.base), after), Latest(c) + 1);
      EnterKeeps(db, receipt, Edited(c, receipt.operation, request));
    }
  }

  lemma RecoverFilesKeeps(db: Db, request: RecoveryRequest)
    requires DbOk(db) && AcceptRecovery(db, request).Ok?
    ensures DbOk(AcceptRecovery(db, request).value.0)
  {
    hide CellOk, PortsApart, ReceiptsOk, Taken, Busy, OnlyFree;
    var receipt := request.receipt;
    if (receipt.scope, receipt.request) !in db.receipts {
      var c := db.cells[receipt.instance];
      var intent := Intent(receipt.operation, "", Recover, "confirm", receipt.confirmed, Some(request.spec), None);
      AdmitKeeps(c, intent);
      SamePortsFree(c.reservations, Taken(db, c.scope, receipt.instance));
      EnterKeeps(db, receipt, Admitted(c, intent));
    }
  }

  // Steps of accepted operations ----------------------------------------------------------------------

  lemma WriteKeeps(db: Db, op: string, call: Journal.Call)
    requires DbOk(db) && Quiet(call) && Journaled(db, op, call).Ok?
    ensures DbOk(Journaled(db, op, call).value)
  {
    hide CellOk, PortsApart, ReceiptsOk, Owned, Taken, OnlyFree, Journal.Apply, Quiet;
    var i := db.owner[op];
    var c := db.cells[i];
    JournalKeeps(c, op, call);
    SamePortsFree(c.reservations, Taken(db, c.scope, i));
    UpdateKeeps(db, i, c.(ops := c.ops[op := Journal.Apply(c.ops[op], call).value]));
  }

  lemma AfterCrashSound(op: Operation)
    requires Journal.Sound(op)
    ensures Journal.Sound(AfterCrash(op)) && Journal.SameRequest(op, AfterCrash(op))
    ensures Unresolved(AfterCrash(op)) <==> Unresolved(op)
    ensures Terminal(op.status) ==> AfterCrash(op) == op
  {
    hide Journal.Numbered, Journal.OpenAtEnd, Journal.AnyOpen;
  }

  lemma RestartUnresolvedOk(c: Cell, id: string)
    requires id in c.ops && UnresolvedOk(c, id)
    ensures UnresolvedOk(RestartCell(c), id)
  {
    hide MovesHeld;
  }

  lemma RestartOpsOk(c: Cell)
    requires OpsOk(c)
    ensures OpsOk(RestartCell(c))
  {
    hide Journal.Sound, UnresolvedOk, AfterCrash;
    var d := RestartCell(c);
    forall id | id in c.ops
      ensures Journal.Sound(d.ops[id]) && (Unresolved(d.ops[id]) <==> Unresolved(c.ops[id]))
      ensures d.ops[id].kind == c.ops[id].kind
    {
      AfterCrashSound(c.ops[id]);
    }
    forall id | id in d.ops && Unresolved(d.ops[id]) ensures UnresolvedOk(d, id) {
      RestartUnresolvedOk(c, id);
    }
  }

  lemma RestartCellKeeps(c: Cell)
    requires CellOk(c)
    ensures CellOk(RestartCell(c))
  {
    hide SpecsOk, ReservationsOk, OpsOk;
    var d := RestartCell(c);
    SameHeader(c, d);
    CreationStays(c, d);
    RestartOpsOk(c);
    if Base(c) != 1 {
      var o :| o in c.ops && c.ops[o].status == Succeeded && c.ops[o].newSpec == Some(Base(c));
      assert d.ops[o] == c.ops[o];
    }
  }

  /** Rows that agree on scopes, reservations and operation identities. */
  ghost predicate SameIdentities(db: Db, next: Db) {
    && next.cells.Keys == db.cells.Keys && next.owner == db.owner && next.receipts == db.receipts
    && forall i | i in db.cells :: SameIdentity(db.cells[i], next.cells[i])
  }

  predicate SameIdentity(c: Cell, d: Cell) {
    d.reservations == c.reservations && d.scope == c.scope && d.ops.Keys == c.ops.Keys && d.storage == c.storage
  }

  lemma SameIdentitiesApart(db: Db, next: Db)
    requires PortsApart(db) && ResourcesApart(db) && SameIdentities(db, next)
    ensures PortsApart(next) && ResourcesApart(next)
  {
    hide Apart, ResourcesDiffer;
  }

  lemma SameIdentitiesOwned(db: Db, next: Db)
    requires Owned(db) && SameIdentities(db, next)
    ensures Owned(next)
  {
  }

  lemma SameIdentitiesReceipts(db: Db, next: Db)
    requires ReceiptsOk(db) && SameIdentities(db, next)
    ensures ReceiptsOk(next)
  {
    forall key | key in next.receipts ensures ReceiptRow(next, key) {
      assert ReceiptRow(db, key);
    }
  }

  lemma RestartKeeps(db: Db)
    requires DbOk(db)
    ensures DbOk(RecoverOnStartup(db))
  {
    hide CellOk, PortsApart, Owned, ReceiptsOk, ResourcesApart;
    var next := RecoverOnStartup(db);
    forall i | i in next.cells ensures CellOk(next.cells[i]) {
      RestartCellKeeps(db.cells[i]);
    }
    SameIdentitiesApart(db, next);
    SameIdentitiesOwned(db, next);
    SameIdentitiesReceipts(db, next);
  }

  lemma ConfirmOtherKeeps(db: Db, receipt: Receipt, candidate: nat, ports: Proposal, refused: set<u16>)
    requires DbOk(db) && Allowed(db, ConfirmOther(receipt, candidate, ports, refused))
    requires Confirm(db, receipt, candidate, ports).Ok?
    ensures DbOk(Confirm(db, receipt, candidate, ports).value)
  {
    hide CellOk, PortsApart, ReceiptsOk, Owned, Taken, OnlyFree, Refused, Acceptable, ToMap, Hold, Inspected, NewIds;
    var i, op := receipt.instance, receipt.operation;
    var c, after := db.cells[i], ToMap(ports);
    var taken := Taken(db, c.scope, i);
    assert ConfirmPorts(c, taken, op, candidate, ports).Ok?;
    ConfirmKeeps(c, taken, refused, op, candidate, ports);
    HoldFree(c.reservations, taken, after, Unreserved(c.reservations, after), candidate + 1);
    UpdateKeeps(db, i, Confirmed(c, op, candidate, ports));
  }

  lemma SettledFree(
    rs: Reservations, listed: set<ReservationId>, before: Bindings, after: Bindings, taken: set<Endpoint>)
    ensures OnlyFree(rs, Settled(rs, listed, before, after), taken)
  {
    var settled := Settled(rs, listed, before, after);
    forall id | id in settled && Active(settled[id]) ensures HasActive(rs, settled[id].at) {
      assert id in rs && rs[id].at == settled[id].at && Active(rs[id]);
    }
  }

  lemma SettleKeeps(db: Db, op: string, container: string, restore: bool, published: bool)
    requires DbOk(db) && Apply(db, Settle(op, container, restore, published)).Ok?
    ensures DbOk(Apply(db, Settle(op, container, restore, published)).value)
  {
    hide CellOk, PortsApart, ReceiptsOk, Owned, Taken, OnlyFree, Settled, Hex64, EachReservedOnce, Saw, MayBeReady, Settleable;
    var i := db.owner[op];
    var c := db.cells[i];
    assert FinishChange(c, op, container, restore, published).Ok?;
    FinishKeeps(c, op, container, restore, published);
    var p := c.pending[op];
    SettledFree(c.reservations, p.listed, Ports(c, p.base), Ports(c, Target(p, restore)), Taken(db, c.scope, i));
    UpdateKeeps(db, i, Finished(c, op, restore));
  }

  /** A step of one instance that reserves nothing new. */
  lemma SameReservationsKeep(db: Db, i: string, d: Cell)
    requires DbOk(db) && i in db.cells && CellOk(d)
    requires d.scope == db.cells[i].scope && d.ops.Keys == db.cells[i].ops.Keys
    requires d.reservations == db.cells[i].reservations && SameResources(db.cells[i].storage, d.storage)
    ensures DbOk(db.(cells := db.cells[i := d]))
  {
    hide DbOk, CellOk, Taken, OnlyFree;
    SamePortsFree(d.reservations, Taken(db, d.scope, i));
    UpdateKeeps(db, i, d);
  }

  lemma OneCell(db: Db, i: string)
    requires DbOk(db) && i in db.cells
    ensures CellOk(db.cells[i])
  {
  }

  lemma MarksKeepResources(storage: map<string, Allocation>)
    ensures SameResources(storage, Overwritten(storage)) && SameResources(storage, Marked(storage))
    ensures SameResources(storage, MarkReady(storage))
  {
  }

  lemma BindPresentKeeps(db: Db, t: Txn)
    requires DbOk(db) && Apply(db, t).Ok? && t.BindPresent?
    ensures DbOk(Apply(db, t).value)
  {
    hide DbOk, CellOk, LowerHex64;
    var i := db.owner[t.op];
    OneCell(db, i);
    RecordBindKeeps(db.cells[i], t.op, t.slot, t.identity, t.evidence);
    SameReservationsKeep(db, i, Apply(db, t).value.cells[i]);
  }

  lemma MarkStepKeeps(db: Db, t: Txn)
    requires DbOk(db) && Allowed(db, t) && Apply(db, t).Ok?
    requires t.MarkStarted? || t.OverwriteStarted?
    ensures DbOk(Apply(db, t).value)
  {
    hide DbOk, CellOk, SawState, Precedes, Markable, Overwritten, Marked, SameResources;
    var i := db.owner[t.op];
    var c := db.cells[i];
    OneCell(db, i);
    MarksKeepResources(c.storage);
    if t.MarkStarted? { MarkKeeps(c, t.op); } else { OverwriteKeeps(c, t.op); }
    SameReservationsKeep(db, i, Apply(db, t).value.cells[i]);
  }

  lemma FinishLifecycleKeeps(db: Db, t: Txn)
    requires DbOk(db) && Allowed(db, t) && Apply(db, t).Ok? && t.FinishLifecycle?
    ensures DbOk(Apply(db, t).value)
  {
    hide DbOk, CellOk, Hex64, Journal.AnyOpen;
    var i := db.owner[t.op];
    OneCell(db, i);
    CompleteLifecycleKeeps(db.cells[i], t.op, t.container, t.runtime, t.observed);
    SameReservationsKeep(db, i, Apply(db, t).value.cells[i]);
  }

  lemma FinishStepKeeps(db: Db, t: Txn)
    requires DbOk(db) && Apply(db, t).Ok?
    requires t.FinishCreate? || t.FinishRecovery?
    ensures DbOk(Apply(db, t).value)
  {
    hide DbOk, CellOk, Hex64, SawState, Precedes, MayBeReady, MarkReady, Saw, SameResources;
    var i := db.owner[t.op];
    var c := db.cells[i];
    OneCell(db, i);
    MarksKeepResources(c.storage);
    ItselfKeepsResources(c.storage);
    match t {
      case FinishCreate(op, container) => CompleteReadyKeeps(c, op, container);
      case FinishRecovery(op, container, runtime, published) =>
        CompleteRecoveryKeeps(c, op, container, runtime, published);
    }
    SameReservationsKeep(db, i, Apply(db, t).value.cells[i]);
  }

  lemma ItselfKeepsResources(storage: map<string, Allocation>)
    ensures SameResources(storage, storage)
  {
  }

  lemma FinishDeleteKeeps(db: Db, receipt: Receipt, checks: seq<StorageCheck>)
    requires DbOk(db) && RemoveInstance(db, receipt, checks).Ok?
    ensures DbOk(RemoveInstance(db, receipt, checks).value)
  {
    hide CellOk, PortsApart, ReceiptsOk, Owned, Taken, Retain, ChecksAll;
    var i := receipt.instance;
    var c := db.cells[i];
    DeleteKeeps(c, receipt.scope, receipt.operation, checks);
    RetainIs(c.storage, checks);
    UpdateKeeps(db, i, Deleted(c, receipt.operation, checks));
  }

  /** Every transaction the program issues keeps the store sound, whether it succeeds or is rolled back. */
  lemma StepKeeps(db: Db, t: Txn)
    requires DbOk(db) && Allowed(db, t)
    ensures DbOk(Next(db, t))
  {
    hide DbOk, CellOk, Journaled, CommitPlan, Accept, AcceptEdit, AcceptRecovery, Confirm, RemoveInstance,
      RecoverOnStartup, OnOwner;
    if Apply(db, t).Ok? {
      match t
      case CommitNew(plan) => CommitNewKeeps(db, plan);
      case AcceptIntent(intent, receipt) => AcceptIntentKeeps(db, intent, receipt);
      case EditPorts(receipt, request) => EditPortsKeeps(db, receipt, request);
      case RecoverFiles(recovery) => RecoverFilesKeeps(db, recovery);
      case Write(op, call) => WriteKeeps(db, op, call);
      case Restart => RestartKeeps(db);
      case ConfirmOther(receipt, candidate, ports, refused) => ConfirmOtherKeeps(db, receipt, candidate, ports, refused);
      case Settle(op, container, restore, published) => SettleKeeps(db, op, container, restore, published);
      case BindPresent(_, _, _, _) => BindPresentKeeps(db, t);
      case MarkStarted(_) => MarkStepKeeps(db, t);
      case OverwriteStarted(_) => MarkStepKeeps(db, t);
      case FinishCreate(_, _) => FinishStepKeeps(db, t);
      case FinishLifecycle(_, _, _, _) => FinishLifecycleKeeps(db, t);
      case FinishRecovery(_, _, _, _) => FinishStepKeeps(db, t);
      case FinishDelete(receipt, checks) => FinishDeleteKeeps(db, receipt, checks);
      case SetSeen(instance, slot, presence) =>
        OneCell(db, instance);
        SetPresenceKeeps(db.cells[instance], slot, presence);
        SameReservationsKeep(db, instance, SetPresence(db.cells[instance], slot, presence).value);
      case Retitle(instance, revision) =>
        OneCell(db, instance);
        RenameKeeps(db.cells[instance], revision);
        SameReservationsKeep(db, instance, RenameInstance(db.cells[instance], revision).value);
    }
  }
}
