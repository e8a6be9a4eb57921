/** Whole runs of the store: any transactions, refused or not, with a restart possible after each. */
module LedgerRuns {
  import opened Wrappers
  import opened LedgerTypes
  import opened PortEdits
  import opened CellInvariant
  import opened PortEditProofs
  import opened InstanceSteps
  import opened InstanceProofs
  import opened LedgerStore
  import opened StoreProofs
  import Journal

  const EMPTY_DB := Db(map[], map[], map[])

  /** The states of a run, one more than the transactions between them. */
  ghost predicate Run(states: seq<Db>, txns: seq<Txn>) {
    && |states| == |txns| + 1
    && DbOk(states[0])
    && forall k | 0 <= k < |txns| :: Allowed(states[k], txns[k]) && states[k + 1] == Next(states[k], txns[k])
  }

  lemma EmptyIsOk()
    ensures DbOk(EMPTY_DB)
  {
  }

  /** Every state of every run is sound. */
  lemma {:induction false} RunKeeps(states: seq<Db>, txns: seq<Txn>, k: nat)
    requires Run(states, txns) && k < |states|
    ensures DbOk(states[k])
  {
    hide DbOk, Allowed, Next;
    if k > 0 {
      RunKeeps(states, txns, k - 1);
      StepKeeps(states[k - 1], txns[k - 1]);
    }
  }

  // What is never undone ---------------------------------------------------------------------------

  /** A row of the journal keeps its request; once finished and closed it keeps everything. */
  ghost predicate LaterRow(before: Operation, after: Operation) {
    && after.kind == before.kind && after.expected == before.expected && before.attempt <= after.attempt
    && (Terminal(before.status) ==> after.status == before.status)
    && (Terminal(before.status) && !Journal.AnyOpen(before.steps) ==> after == before)
  }

  ghost predicate LaterOps(before: map<string, Operation>, after: map<string, Operation>) {
    forall id | id in before :: id in after && LaterRow(before[id], after[id])
  }

  /** Saved bindings never change, storage knowledge grows, and retirement is final. */
  ghost predicate Later(c: Cell, d: Cell) {
    && d.scope == c.scope && c.revision <= d.revision
    && (forall r | r in c.specs :: r in d.specs && d.specs[r] == c.specs[r])
    && LaterOps(c.ops, d.ops) && StorageGrows(c.storage, d.storage)
    && (c.lifecycle == Retired ==> d.lifecycle == Retired)
  }

  ghost predicate LaterDb(db: Db, next: Db) {
    && (forall i | i in db.cells :: i in next.cells && Later(db.cells[i], next.cells[i]))
    && (forall op | op in db.owner :: op in next.owner && next.owner[op] == db.owner[op])
    && (forall key | key in db.receipts :: key in next.receipts && next.receipts[key] == db.receipts[key])
  }

  lemma LaterRowRefl(op: Operation)
    ensures LaterRow(op, op)
  {
  }

  lemma LaterRefl(c: Cell)
    ensures Later(c, c)
  {
  }

  lemma LaterTrans(a: Cell, b: Cell, c: Cell)
    requires Later(a, b) && Later(b, c)
    ensures Later(a, c)
  {
    hide Journal.AnyOpen;
    forall id | id in a.ops ensures id in c.ops && LaterRow(a.ops[id], c.ops[id]) {
      assert LaterRow(a.ops[id], b.ops[id]) && LaterRow(b.ops[id], c.ops[id]);
    }
  }

  lemma LaterDbTrans(a: Db, b: Db, c: Db)
    requires LaterDb(a, b) && LaterDb(b, c)
    ensures LaterDb(a, c)
  {
    hide Later;
    forall i | i in a.cells ensures Later(a.cells[i], c.cells[i]) {
      LaterTrans(a.cells[i], b.cells[i], c.cells[i]);
    }
  }

  // One transaction ----------------------------------------------------------------------------------

  /** Only one row changes, and it was unresolved or only had a step closed. */
  lemma OneRowLater(c: Cell, d: Cell, op: string)
    requires op in c.ops && op in d.ops && d.ops == c.ops[op := d.ops[op]] && LaterRow(c.ops[op], d.ops[op])
    ensures LaterOps(c.ops, d.ops)
  {
    forall id | id in c.ops ensures LaterRow(c.ops[id], d.ops[id]) {
      LaterRowRefl(c.ops[id]);
    }
  }

  lemma NewRowLater(c: Cell, d: Cell, op: string)
    requires op !in c.ops && op in d.ops && d.ops == c.ops[op := d.ops[op]]
    ensures LaterOps(c.ops, d.ops)
  {
    forall id | id in c.ops ensures LaterRow(c.ops[id], d.ops[id]) {
      LaterRowRefl(c.ops[id]);
    }
  }

  lemma CallLater(op: Operation, call: Journal.Call)
    requires Journal.Sound(op) && Journal.Apply(op, call).Ok?
    ensures LaterRow(op, Journal.Apply(op, call).value)
  {
    hide Journal.Sound;
    Journal.CallKeeps(op, call);
    if Terminal(op.status) && !Journal.AnyOpen(op.steps) { Journal.FrozenWhenClosed(op, call); }
  }

  lemma PutLater(db: Db, i: string, d: Cell)
    requires i in db.cells && Later(db.cells[i], d)
    ensures LaterDb(db, db.(cells := db.cells[i := d]))
  {
    hide Later;
    forall j | j in db.cells ensures Later(db.cells[j], db.cells[i := d][j]) {
      LaterRefl(db.cells[j]);
    }
  }

  lemma EnterLater(db: Db, receipt: Receipt, d: Cell)
    requires receipt.instance in db.cells ==> Later(db.cells[receipt.instance], d)
    requires receipt.operation !in db.owner && (receipt.scope, receipt.request) !in db.receipts
    ensures LaterDb(db, WithReceipt(db.(cells := db.cells[receipt.instance := d]), receipt))
  {
    hide Later;
    forall j | j in db.cells && j != receipt.instance ensures Later(db.cells[j], db.cells[j]) {
      LaterRefl(db.cells[j]);
    }
  }

  lemma SameDbLater(db: Db)
    ensures LaterDb(db, db)
  {
    hide Later;
    forall j | j in db.cells ensures Later(db.cells[j], db.cells[j]) {
      LaterRefl(db.cells[j]);
    }
  }

  lemma CommitNewLater(db: Db, p: PlanCommit)
    requires DbOk(db) && CommitPlan(db, p).Ok?
    ensures LaterDb(db, CommitPlan(db, p).value.0)
  {
    hide DbOk, Insertable, ValidPlanCommit, Taken, FindReceipt, CloneRefused, LaterDb, FirstRequest, NewCell;
    NoReceiptFound(db, p.receipt);
    if FindReceipt(db, p.receipt.scope, p.receipt.request, p.receipt.plan).None? {
      PlanCommitNames(p);
      assert (p.receipt.scope, p.receipt.request) !in db.receipts by { FirstKey(db, p.receipt); }
      EnterLater(db, p.receipt, NewCell(p.record, p.intent.id, p.intent.kind, p.intent.phase));
    } else {
      SameDbLater(db);
    }
  }

  lemma FirstKey(db: Db, receipt: Receipt)
    requires FirstRequest(db, receipt)
    ensures (receipt.scope, receipt.request) !in db.receipts
  {
  }

  lemma NewOperationId(db: Db, i: string, op: string)
    requires DbOk(db) && i in db.cells && op !in db.owner
    ensures op !in db.cells[i].ops
  {
    hide CellsOk, PortsApart, ReceiptsOk;
  }

  lemma AdmittedLater(c: Cell, intent: Intent)
    requires intent.id !in c.ops && c.revision == intent.expected && c.lifecycle == Managed
    ensures Later(c, Admitted(c, intent))
  {
    NewRowLater(c, Admitted(c, intent), intent.id);
  }

  lemma AcceptIntentLater(db: Db, intent: Intent, receipt: Receipt)
    requires DbOk(db) && Accept(db, intent, receipt).Ok?
    ensures LaterDb(db, Accept(db, intent, receipt).value.0)
  {
    hide DbOk, FindReceipt, Hex64, Busy, LaterDb, Later, FirstRequest;
    NoReceiptFound(db, receipt);
    if FindReceipt(db, receipt.scope, receipt.request, receipt.plan).None? {
      NewOperationId(db, intent.instance, intent.id);
      AdmittedLater(db.cells[intent.instance], intent);
      assert (receipt.scope, receipt.request) !in db.receipts by { FirstKey(db, receipt); }
      EnterLater(db, receipt, Admitted(db.cells[intent.instance], intent));
    } else {
      SameDbLater(db);
    }
  }

  lemma EditedLater(c: Cell, op: string, request: EditRequest)
    requires op !in c.ops && Latest(c) + 1 !in c.specs
    ensures Later(c, Edited(c, op, request))
  {
    hide Hold, ToMap, Changed;
    NewRowLater(c, Edited(c, op, request), op);
  }

  lemma EditPortsLater(db: Db, receipt: Receipt, request: EditRequest)
    requires DbOk(db) && AcceptEdit(db, receipt, request).Ok?
    ensures LaterDb(db, AcceptEdit(db, receipt, request).value.0)
  {
    hide DbOk, CellOk, Hex64, Busy, LaterDb, Later, Refused, Acceptable, Edited, Taken;
    if (receipt.scope, receipt.request) !in db.receipts {
      var c := db.cells[receipt.instance];
      NewOperationId(db, receipt.instance, receipt.operation);
      OneCell(db, receipt.instance);
      CellParts(c);
      LatestIs(c);
      EditedLater(c, receipt.operation, request);
      EnterLater(db, receipt, Edited(c, receipt.operation, request));
    } else {
      SameDbLater(db);
    }
  }

  lemma RecoverFilesLater(db: Db, request: RecoveryRequest)
    requires DbOk(db) && AcceptRecovery(db, request).Ok?
    ensures LaterDb(db, AcceptRecovery(db, request).value.0)
  {
    hide DbOk, Busy, LaterDb, Later;
    var receipt := request.receipt;
    if (receipt.scope, receipt.request) !in db.receipts {
      var c := db.cells[receipt.instance];
      NewOperationId(db, receipt.instance, receipt.operation);
      var intent := Intent(receipt.operation, "", Recover, "confirm", receipt.confirmed, Some(request.spec), None);
      AdmittedLater(c, intent);
      EnterLater(db, receipt, Admitted(c, intent));
    } else {
      SameDbLater(db);
    }
  }

  lemma WriteLater(db: Db, op: string, call: Journal.Call)
    requires DbOk(db) && Journaled(db, op, call).Ok?
    ensures LaterDb(db, Journaled(db, op, call).value)
  {
    hide DbOk, CellOk, LaterDb, Journal.Apply, Journal.Sound, LaterRow;
    var i := db.owner[op];
    var c := db.cells[i];
    OneCell(db, i);
    CellParts(c);
    OpsAreSound(c);
    CallLater(c.ops[op], call);
    var d := c.(ops := c.ops[op := Journal.Apply(c.ops[op], call).value]);
    OneRowLater(c, d, op);
    PutLater(db, i, d);
  }

  lemma RestartLater(db: Db)
    ensures LaterDb(db, RecoverOnStartup(db))
  {
    hide Journal.AnyOpen;
    forall i | i in db.cells ensures Later(db.cells[i], RestartCell(db.cells[i])) {
    }
  }

  lemma ConfirmOtherLater(db: Db, receipt: Receipt, candidate: nat, ports: Proposal)
    requires DbOk(db) && Confirm(db, receipt, candidate, ports).Ok?
    ensures LaterDb(db, Confirm(db, receipt, candidate, ports).value)
  {
    hide DbOk, Taken, Refused, Acceptable, ToMap, Hold, NewIds, LaterDb, Unreserved, Journal.AnyOpen;
    var c := db.cells[receipt.instance];
    var d := Confirmed(c, receipt.operation, candidate, ports);
    OneRowLater(c, d, receipt.operation);
    PutLater(db, receipt.instance, d);
  }

  lemma MarkReadyGrows(storage: map<string, Allocation>)
    ensures StorageGrows(storage, MarkReady(storage))
  {
  }

  lemma FinishedLater(c: Cell, op: string, restore: bool)
    requires op in c.ops && op in c.pending && Unresolved(c.ops[op]) && c.lifecycle == Managed
    ensures Later(c, Finished(c, op, restore))
  {
    hide Settled, StorageGrows, MarkReady, Journal.AnyOpen;
    MarkReadyGrows(c.storage);
    assert StorageGrows(c.storage, c.storage) by { SameStorageGrows(c.storage); }
    OneRowLater(c, Finished(c, op, restore), op);
  }

  lemma SameStorageGrows(storage: map<string, Allocation>)
    ensures StorageGrows(storage, storage)
  {
  }

  lemma SettleLater(db: Db, op: string, container: string, restore: bool, published: bool)
    requires DbOk(db) && Apply(db, Settle(op, container, restore, published)).Ok?
    ensures LaterDb(db, Apply(db, Settle(op, container, restore, published)).value)
  {
    hide DbOk, CellOk, Hex64, Settled, EachReservedOnce, Saw, LaterDb, Later, Finished, MayBeReady;
    var i := db.owner[op];
    var c := db.cells[i];
    OneCell(db, i);
    assert FinishChange(c, op, container, restore, published).Ok?;
    FinishFacts(c, op, container, restore, published);
    FinishedLater(c, op, restore);
    PutLater(db, i, Finished(c, op, restore));
  }

  lemma StorageLater(c: Cell, storage: map<string, Allocation>)
    requires StorageGrows(c.storage, storage)
    ensures Later(c, c.(storage := storage))
  {
    hide StorageGrows, LaterRow;
    forall id | id in c.ops ensures LaterRow(c.ops[id], c.ops[id]) {
      LaterRowRefl(c.ops[id]);
    }
  }

  lemma StorageStepLater(db: Db, t: Txn)
    requires DbOk(db) && Allowed(db, t) && Apply(db, t).Ok?
    requires t.BindPresent? || t.MarkStarted? || t.OverwriteStarted?
    ensures LaterDb(db, Apply(db, t).value)
  {
    hide DbOk, CellOk, Hex64, LowerHex64, SawState, Precedes, Markable, Overwritten, Marked, LaterDb, Later, StorageGrows;
    var i := db.owner[t.op];
    var c := db.cells[i];
    OneCell(db, i);
    match t {
      case BindPresent(op, slot, identity, evidence) => RecordBindKeeps(c, op, slot, identity, evidence);
      case MarkStarted(op) => MarkKeeps(c, op);
      case OverwriteStarted(op) => OverwriteKeeps(c, op);
    }
    StorageLater(c, Apply(db, t).value.cells[i].storage);
    PutLater(db, i, Apply(db, t).value.cells[i]);
  }

  lemma ClosedRowLater(c: Cell, d: Cell, op: string)
    requires op in c.ops && Unresolved(c.ops[op]) && op in d.ops && d.ops == c.ops[op := d.ops[op]]
    requires d.ops[op] == c.ops[op].(status := d.ops[op].status, phase := d.ops[op].phase)
    requires d.scope == c.scope && d.specs == c.specs && c.revision <= d.revision && d.lifecycle == c.lifecycle
    requires StorageGrows(c.storage, d.storage)
    ensures Later(c, d)
  {
    hide StorageGrows, Journal.AnyOpen;
    OneRowLater(c, d, op);
  }

  lemma FinishStepLater(db: Db, t: Txn)
    requires DbOk(db) && Apply(db, t).Ok?
    requires t.FinishCreate? || t.FinishLifecycle? || t.FinishRecovery?
    ensures LaterDb(db, Apply(db, t).value)
  {
    hide DbOk, CellOk, Hex64, SawState, Precedes, Saw, LaterDb, Later, StorageGrows, MayBeReady, MarkReady;
    var i := db.owner[t.op];
    var c := db.cells[i];
    OneCell(db, i);
    if t.FinishCreate? { CompleteReadyKeeps(c, t.op, t.container); } else { SameStorageGrows(c.storage); }
    var d := Apply(db, t).value.cells[i];
    ClosedRowLater(c, d, t.op);
    PutLater(db, i, d);
  }

  lemma FinishDeleteLater(db: Db, receipt: Receipt, checks: seq<StorageCheck>)
    requires DbOk(db) && RemoveInstance(db, receipt, checks).Ok?
    ensures LaterDb(db, RemoveInstance(db, receipt, checks).value)
  {
    hide DbOk, CellOk, Retain, ChecksAll, LaterDb, Journal.AnyOpen;
    var c := db.cells[receipt.instance];
    OneCell(db, receipt.instance);
    DeleteKeeps(c, receipt.scope, receipt.operation, checks);
    var d := Deleted(c, receipt.operation, checks);
    OneRowLater(c, d, receipt.operation);
    PutLater(db, receipt.instance, d);
  }

  lemma StepLater(db: Db, t: Txn)
    requires DbOk(db) && Allowed(db, t)
    ensures LaterDb(db, Next(db, t))
  {
    hide DbOk, CellOk, Journaled, CommitPlan, Accept, AcceptEdit, AcceptRecovery, Confirm, RemoveInstance,
      RecoverOnStartup, OnOwner, LaterDb, Later;
    if Apply(db, t).Err? {
      SameDbLater(db);
    } else {
      match t
      case CommitNew(plan) => CommitNewLater(db, plan);
      case AcceptIntent(intent, receipt) => AcceptIntentLater(db, intent, receipt);
      case EditPorts(receipt, request) => EditPortsLater(db, receipt, request);
      case RecoverFiles(recovery) => RecoverFilesLater(db, recovery);
      case Write(op, call) => WriteLater(db, op, call);
      case Restart => RestartLater(db);
      case ConfirmOther(receipt, candidate, ports, _) => ConfirmOtherLater(db, receipt, candidate, ports);
      case Settle(op, container, restore, published) => SettleLater(db, op, container, restore, published);
      case BindPresent(_, _, _, _) => StorageStepLater(db, t);
      case MarkStarted(_) => StorageStepLater(db, t);
      case OverwriteStarted(_) => StorageStepLater(db, t);
      case FinishCreate(_, _) => FinishStepLater(db, t);
      case FinishLifecycle(_, _, _, _) => FinishStepLater(db, t);
      case FinishRecovery(_, _, _, _) => FinishStepLater(db, t);
      case FinishDelete(receipt, checks) => FinishDeleteLater(db, receipt, checks);
      case SetSeen(instance, slot, presence) =>
        OneCell(db, instance);
        var c := db.cells[instance];
        SetPresenceKeeps(c, slot, presence);
        StorageLater(c, SetPresence(c, slot, presence).value.storage);
        PutLater(db, instance, SetPresence(c, slot, presence).value);
      case Retitle(instance, revision) =>
        RetitleLater(db.cells[instance], revision);
        PutLater(db, instance, RenameInstance(db.cells[instance], revision).value);
    }
  }

  lemma RetitleLater(c: Cell, revision: nat)
    requires RenameInstance(c, revision).Ok?
    ensures Later(c, RenameInstance(c, revision).value)
  {
  }

  /** Between any two states of a run nothing listed in Later is ever undone. */
  lemma {:induction false} RunLater(states: seq<Db>, txns: seq<Txn>, i: nat, j: nat)
    requires Run(states, txns) && i <= j < |states|
    ensures LaterDb(states[i], states[j])
    decreases j - i
  {
    hide DbOk, LaterDb, Allowed, Next;
    if i == j {
      SameDbLater(states[i]);
    } else {
      RunLater(states, txns, i, j - 1);
      RunKeeps(states, txns, j - 1);
      StepLater(states[j - 1], txns[j - 1]);
      LaterDbTrans(states[i], states[j - 1], states[j]);
    }
  }
}
