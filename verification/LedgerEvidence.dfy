/** What has to be seen before an operation counts as finished, and what finishing it changes. */
module LedgerEvidence {
  import opened Wrappers
  import opened LedgerTypes
  import opened PortEdits
  import opened CellInvariant
  import opened PortEditProofs
  import opened InstanceSteps
  import opened InstanceProofs
  import opened LedgerStore
  import opened StoreProofs
  import opened LedgerRuns
  import opened LedgerTheorems
  import Journal

  // Which transaction finishes an operation ---------------------------------------------------------

  /** The operation a transaction can bring to its end. */
  function Ends(t: Txn): Option<string> {
    match t
    case Settle(op, _, _, _) => Some(op)
    case FinishCreate(op, _) => Some(op)
    case FinishLifecycle(op, _, _, _) => Some(op)
    case FinishRecovery(op, _, _, _) => Some(op)
    case FinishDelete(receipt, _) => Some(receipt.operation)
    case Write(op, call) => if call.Abandon? then Some(op) else None
    case _ => None
  }

  predicate HasRow(db: Db, i: string, op: string) { i in db.cells && op in db.cells[i].ops }

  predicate UnresolvedRow(db: Db, i: string, op: string) { HasRow(db, i, op) && Unresolved(db.cells[i].ops[op]) }

  lemma OwnedRow(db: Db, i: string, op: string)
    requires DbOk(db) && HasRow(db, i, op)
    ensures op in db.owner && db.owner[op] == i
  {
    hide CellsOk, PortsApart, ReceiptsOk, ResourcesApart;
  }

  /** An instance keeps its storage, and every operation it had keeps its row. */
  ghost predicate KeepsRows(before: Db, after: Db, i: string) {
    && i in before.cells && i in after.cells && after.cells[i].storage == before.cells[i].storage
    && forall op | op in before.cells[i].ops ::
         op in after.cells[i].ops && after.cells[i].ops[op] == before.cells[i].ops[op]
  }

  /** Entering one new operation leaves everything earlier alone. */
  lemma EnteredKeepsRows(db: Db, receipt: Receipt, d: Cell, i: string)
    requires DbOk(db) && i in db.cells && receipt.operation !in db.owner
    requires receipt.instance in db.cells ==>
      && receipt.operation in d.ops && d.storage == db.cells[receipt.instance].storage
      && d.ops == db.cells[receipt.instance].ops[receipt.operation := d.ops[receipt.operation]]
    ensures KeepsRows(db, WithReceipt(db.(cells := db.cells[receipt.instance := d]), receipt), i)
  {
    hide DbOk;
    forall op | op in db.cells[i].ops ensures op != receipt.operation {
      OwnedRow(db, i, op);
    }
  }

  lemma CommitKeepsRows(db: Db, p: PlanCommit, i: string)
    requires DbOk(db) && CommitPlan(db, p).Ok? && i in db.cells
    ensures KeepsRows(db, CommitPlan(db, p).value.0, i)
  {
    hide DbOk, FindReceipt, ValidPlanCommit, Insertable, Taken, Used, CloneRefused, FirstRequest, NewCell;
    NoReceiptFound(db, p.receipt);
    if ValidPlanCommit(p) && FirstRequest(db, p.receipt) {
      PlanCommitNames(p);
      EnteredKeepsRows(db, p.receipt, NewCell(p.record, p.intent.id, p.intent.kind, p.intent.phase), i);
    }
  }

  lemma AcceptKeepsRows(db: Db, intent: Intent, receipt: Receipt, i: string)
    requires DbOk(db) && Accept(db, intent, receipt).Ok? && i in db.cells
    ensures KeepsRows(db, Accept(db, intent, receipt).value.0, i)
  {
    hide DbOk, FindReceipt, ValidAccept, FirstRequest, Busy;
    NoReceiptFound(db, receipt);
    if ValidAccept(intent, receipt) && FirstRequest(db, receipt) {
      AcceptNames(intent, receipt);
      EnteredKeepsRows(db, receipt, Admitted(db.cells[intent.instance], intent), i);
    }
  }

  lemma EditKeepsRows(db: Db, receipt: Receipt, request: EditRequest, i: string)
    requires DbOk(db) && AcceptEdit(db, receipt, request).Ok? && i in db.cells
    ensures KeepsRows(db, AcceptEdit(db, receipt, request).value.0, i)
  {
    hide DbOk, ValidEdit, Busy, Acceptable, ToMap, Hold, Refused, Taken, Latest, Changed;
    if (receipt.scope, receipt.request) !in db.receipts {
      EnteredKeepsRows(db, receipt, Edited(db.cells[receipt.instance], receipt.operation, request), i);
    }
  }

  lemma RecoverKeepsRows(db: Db, request: RecoveryRequest, i: string)
    requires DbOk(db) && AcceptRecovery(db, request).Ok? && i in db.cells
    ensures KeepsRows(db, AcceptRecovery(db, request).value.0, i)
  {
    hide DbOk, Busy;
    var receipt := request.receipt;
    if (receipt.scope, receipt.request) !in db.receipts {
      var intent := Intent(receipt.operation, "", Recover, "confirm", receipt.confirmed, Some(request.spec), None);
      EnteredKeepsRows(db, receipt, Admitted(db.cells[receipt.instance], intent), i);
    }
  }

  /** Acceptance leaves storage and the rows of earlier operations alone. */
  lemma AcceptanceKeepsRows(db: Db, t: Txn, i: string)
    requires DbOk(db) && Accepts(t) && Apply(db, t).Ok? && i in db.cells
    ensures KeepsRows(db, Apply(db, t).value, i)
  {
    hide DbOk, CommitPlan, Accept, AcceptEdit, AcceptRecovery;
    match t
    case CommitNew(plan) => CommitKeepsRows(db, plan, i);
    case AcceptIntent(intent, receipt) => AcceptKeepsRows(db, intent, receipt, i);
    case EditPorts(receipt, request) => EditKeepsRows(db, receipt, request, i);
    case RecoverFiles(recovery) => RecoverKeepsRows(db, recovery, i);
  }

  /** A journal call other than an abandonment leaves an unresolved operation unresolved. */
  lemma CallsLeaveUnresolved(db: Db, t: Txn, i: string, op: string)
    requires DbOk(db) && t.Write? && Allowed(db, t) && Apply(db, t).Ok? && UnresolvedRow(db, i, op) && Ends(t) != Some(op)
    ensures UnresolvedRow(Apply(db, t).value, i, op)
  {
    hide DbOk, Journal.AnyOpen, Journal.AnyUnknown;
    OwnedRow(db, i, op);
  }

  lemma WritesLeaveUnresolved(db: Db, t: Txn, i: string, op: string)
    requires DbOk(db) && !Accepts(t) && !t.Write? && Apply(db, t).Ok? && UnresolvedRow(db, i, op) && Ends(t) != Some(op)
    ensures UnresolvedRow(Apply(db, t).value, i, op)
  {
    hide DbOk, CommitPlan, Accept, AcceptEdit, AcceptRecovery, Settled, Hold, ToMap, Acceptable, Refused, Taken, Hex64,
      Saw, SawState, Precedes, ChecksAll, Retain, EachReservedOnce, MayBeReady, Markable, Marked, MarkReady, Settleable,
      LowerHex64, Journaled;
    OwnedRow(db, i, op);
  }

  /** Everything but the transaction that ends it leaves an unresolved operation unresolved. */
  lemma OthersLeaveUnresolved(db: Db, t: Txn, i: string, op: string)
    requires DbOk(db) && Allowed(db, t) && Apply(db, t).Ok? && UnresolvedRow(db, i, op) && Ends(t) != Some(op)
    ensures UnresolvedRow(Apply(db, t).value, i, op)
  {
    hide DbOk, Allowed, Apply;
    if Accepts(t) {
      AcceptanceKeepsRows(db, t, i);
    } else if t.Write? {
      CallsLeaveUnresolved(db, t, i, op);
    } else {
      WritesLeaveUnresolved(db, t, i, op);
    }
  }

  // What was seen -----------------------------------------------------------------------------------------

  /** The results a last look may have confirmed, by the kind of operation. */
  function Sights(kind: Kind): set<Expected> {
    if kind == EditPort then {ContainerStopped}
    else if kind == Recover then {StateObserved}
    else if Creates(kind) then {ContainerRunning, StateObserved}
    else {}
  }

  /** The last step, in this attempt, was a look at the engine that confirmed what was wanted. */
  ghost predicate SeenAtLast(o: Operation) {
    && |o.steps| in o.steps
    && var last := o.steps[|o.steps|];
    && last.command == Observe && last.expected in Sights(o.kind) && last.attempt == o.attempt
    && last.outcome == Some(StepSucceeded)
  }

  lemma LastStep(c: Cell, op: string)
    requires CellOk(c) && op in c.ops
    ensures Journal.Sound(c.ops[op]) && Journal.Last(c.ops[op].steps) == |c.ops[op].steps|
    ensures |c.ops[op].steps| in c.ops[op].steps && c.ops[op].steps[|c.ops[op].steps|].outcome.Some? ==>
      !Journal.AnyOpen(c.ops[op].steps)
  {
    hide SpecsOk, ReservationsOk, CommittedIsBase, UnresolvedOk;
    Journal.LastIsCount(c.ops[op].steps);
  }

  lemma SettledWasSeen(c: Cell, op: string, container: string, restore: bool, published: bool)
    requires CellOk(c) && FinishChange(c, op, container, restore, published).Ok?
    ensures op in c.ops && SeenAtLast(c.ops[op]) && c.ops[op].steps[|c.ops[op].steps|].resource == container && published
    ensures c.lifecycle == Managed && c.revision == c.ops[op].expected
    ensures c.ops[op].kind == EditPort || Creates(c.ops[op].kind)
  {
    hide CellOk, Hex64, EachReservedOnce, MayBeReady;
    LastStep(c, op);
  }

  lemma ReadyWasSeen(c: Cell, op: string, container: string)
    requires CellOk(c) && CompleteReady(c, op, container).Ok?
    ensures op in c.ops && Creates(c.ops[op].kind) && SeenAtLast(c.ops[op])
    ensures c.ops[op].steps[|c.ops[op].steps|].resource == container
  {
    hide CellOk, Hex64, MayBeReady, Precedes;
    LastStep(c, op);
  }

  lemma RecoveredWasSeen(c: Cell, op: string, container: string, runtime: Runtime, published: bool)
    requires CellOk(c) && CompleteRecovery(c, op, container, runtime, published).Ok?
    ensures op in c.ops && c.ops[op].kind == Recover && SeenAtLast(c.ops[op]) && published
    ensures c.ops[op].steps[|c.ops[op].steps|].resource == container && runtime !in {Gone, Unknown}
    ensures c.lifecycle == Managed && c.applied == c.ops[op].oldSpec
  {
    hide CellOk, Hex64;
    LastStep(c, op);
  }

  /** The transaction between two states of a run, applied. */
  lemma StepOfRun(states: seq<Db>, txns: seq<Txn>, k: nat)
    requires Run(states, txns) && k < |txns|
    ensures k + 1 < |states| && k < |states|
    ensures DbOk(states[k]) && Allowed(states[k], txns[k]) && states[k + 1] == Next(states[k], txns[k])
  {
    hide DbOk, Allowed, Next;
    RunKeeps(states, txns, k);
  }

  /**
   * In every run, an operation that becomes succeeded has no open step; a creation, a port edit or a
   * recovery has moreover seen at last, in the same attempt, what it wanted.
   */
  lemma SuccessWasSeen(states: seq<Db>, txns: seq<Txn>, k: nat, i: string, op: string)
    requires Run(states, txns) && k < |txns| && HasRow(states[k], i, op) && HasRow(states[k + 1], i, op)
    requires Unresolved(states[k].cells[i].ops[op]) && states[k + 1].cells[i].ops[op].status == Succeeded
    ensures var o := states[k].cells[i].ops[op];
      && !Journal.AnyOpen(o.steps) && (Creates(o.kind) || o.kind in {EditPort, Recover} ==> SeenAtLast(o))
  {
    hide DbOk, Allowed, Apply, SeenAtLast, Run, CellOk, Journal.AnyOpen;
    StepOfRun(states, txns, k);
    FinishedWasSeen(states[k], txns[k], i, op);
  }

  lemma FinishedWasSeen(db: Db, t: Txn, i: string, op: string)
    requires DbOk(db) && Allowed(db, t) && HasRow(db, i, op) && HasRow(Next(db, t), i, op)
    requires Unresolved(db.cells[i].ops[op]) && Next(db, t).cells[i].ops[op].status == Succeeded
    ensures var o := db.cells[i].ops[op];
      && !Journal.AnyOpen(o.steps) && (Creates(o.kind) || o.kind in {EditPort, Recover} ==> SeenAtLast(o))
  {
    hide DbOk, CellOk, Hex64, Settled, Saw, SawState, Precedes, MayBeReady, MarkReady, EachReservedOnce, ChecksAll, Retain,
      SeenAtLast, Journal.AnyOpen, Journal.AnyUnknown, Settleable, CommitPlan, Accept, AcceptEdit, AcceptRecovery;
    if Ends(t) != Some(op) { OthersLeaveUnresolved(db, t, i, op); }
    OwnedRow(db, i, op);
    OneCell(db, i);
    var c := db.cells[i];
    match t {
      case Settle(_, container, restore, published) =>
        SettledWasSeen(c, op, container, restore, published);
        SeenIsClosed(c, op);
      case FinishCreate(_, container) =>
        ReadyWasSeen(c, op, container);
        SeenIsClosed(c, op);
      case FinishRecovery(_, container, runtime, published) =>
        RecoveredWasSeen(c, op, container, runtime, published);
        SeenIsClosed(c, op);
      case FinishLifecycle(_, _, _, _) =>
      case FinishDelete(_, _) =>
      case _ =>
    }
  }

  lemma SeenIsClosed(c: Cell, op: string)
    requires CellOk(c) && op in c.ops && SeenAtLast(c.ops[op])
    ensures !Journal.AnyOpen(c.ops[op].steps)
  {
    hide CellOk;
    LastStep(c, op);
  }

  // What finishing changes ----------------------------------------------------------------------------------

  /** The same allocations, each of which may hold data that a running container was seen to use. */
  predicate NowReady(before: map<string, Allocation>, after: map<string, Allocation>) {
    && after.Keys == before.Keys
    && forall slot | slot in before ::
         && before[slot].presence == Present && before[slot].initialization == MayHaveInitialized
         && after[slot] == before[slot].(initialization := ReadyObserved)
  }

  /** A settled creation leaves all its storage ready, a settled edit leaves storage alone; the row says which. */
  lemma SettledRows(c: Cell, op: string, container: string, restore: bool, published: bool)
    requires FinishChange(c, op, container, restore, published).Ok?
    ensures var d := FinishChange(c, op, container, restore, published).value;
      && op in c.ops && op in d.ops && d.ops == c.ops[op := d.ops[op]]
      && d.ops[op] == c.ops[op].(
           status := if restore then Abandoned else Succeeded,
           phase := if c.ops[op].kind == EditPort then "stopped" else "ready")
      && (if c.ops[op].kind == EditPort then d.storage == c.storage else NowReady(c.storage, d.storage))
  {
    hide Hex64, Settled, Saw, EachReservedOnce;
  }

  lemma ReadyRows(c: Cell, op: string, container: string)
    requires CompleteReady(c, op, container).Ok?
    ensures var d := CompleteReady(c, op, container).value;
      && op in c.ops && op in d.ops && d.ops == c.ops[op := d.ops[op]] && NowReady(c.storage, d.storage)
      && d.ops[op] == c.ops[op].(status := Succeeded, phase := "ready") && d.applied == Some(1)
  {
    hide Hex64, SawState, Precedes;
  }

  /** The same over runs: what any settlement does to storage and to the row of its operation. */
  lemma SettlementRows(states: seq<Db>, txns: seq<Txn>, k: nat)
    requires Run(states, txns) && k < |txns| && txns[k].Settle? && Apply(states[k], txns[k]).Ok?
    ensures txns[k].op in states[k].owner
    ensures var i, op := states[k].owner[txns[k].op], txns[k].op;
      && HasRow(states[k], i, op) && HasRow(states[k + 1], i, op)
      && var c, d := states[k].cells[i], states[k + 1].cells[i];
      && d.ops[op].status == (if txns[k].restore then Abandoned else Succeeded)
      && (if c.ops[op].kind == EditPort then d.storage == c.storage else NowReady(c.storage, d.storage))
  {
    hide DbOk, Allowed, CellOk, NowReady, FinishChange, Hex64, Run;
    StepOfRun(states, txns, k);
    var t, i := txns[k], states[k].owner[txns[k].op];
    SettledRows(states[k].cells[i], t.op, t.container, t.restore, t.published);
  }

  /**
   * In every run, a creation that becomes succeeded leaves every allocation ready, each of which was present
   * and marked before.
   */
  lemma CreationMakesReady(states: seq<Db>, txns: seq<Txn>, k: nat, i: string, op: string)
    requires Run(states, txns) && k < |txns| && HasRow(states[k], i, op) && HasRow(states[k + 1], i, op)
    requires Unresolved(states[k].cells[i].ops[op]) && states[k + 1].cells[i].ops[op].status == Succeeded
    requires Creates(states[k].cells[i].ops[op].kind)
    ensures NowReady(states[k].cells[i].storage, states[k + 1].cells[i].storage) && states[k + 1].cells[i].applied.Some?
  {
    hide DbOk, Allowed, Apply, NowReady, Run, CellOk;
    StepOfRun(states, txns, k);
    FinishedCreation(states[k], txns[k], i, op);
  }

  lemma FinishedCreation(db: Db, t: Txn, i: string, op: string)
    requires DbOk(db) && Allowed(db, t) && HasRow(db, i, op) && HasRow(Next(db, t), i, op)
    requires Unresolved(db.cells[i].ops[op]) && Next(db, t).cells[i].ops[op].status == Succeeded
    requires Creates(db.cells[i].ops[op].kind)
    ensures NowReady(db.cells[i].storage, Next(db, t).cells[i].storage) && Next(db, t).cells[i].applied.Some?
  {
    hide DbOk, CellOk, Hex64, Settled, Saw, SawState, Precedes, MayBeReady, MarkReady, EachReservedOnce, ChecksAll, Retain,
      NowReady, Journal.AnyOpen, Journal.AnyUnknown, Settleable, CommitPlan, Accept, AcceptEdit, AcceptRecovery;
    if Ends(t) != Some(op) { OthersLeaveUnresolved(db, t, i, op); }
    OwnedRow(db, i, op);
    var c := db.cells[i];
    match t {
      case Settle(_, container, restore, published) => SettledRows(c, op, container, restore, published);
      case FinishCreate(_, container) => ReadyRows(c, op, container);
      case _ =>
    }
  }

  // Before and after a start --------------------------------------------------------------------------------

  /** Storage is marked only after a creation step of this attempt, and a look after that. */
  lemma MarkedOnlyAfterCreation(c: Cell, op: string)
    requires CellOk(c) && MarkMayHaveInitialized(c, op).Ok?
    ensures op in c.ops && SeenAtLast(c.ops[op])
    ensures exists k ::
      && k in c.ops[op].steps && k < |c.ops[op].steps|
      && c.ops[op].steps[k].command == ComposeCreate && c.ops[op].steps[k].outcome == Some(StepSucceeded)
      && c.ops[op].steps[k].attempt == c.ops[op].attempt
  {
    hide CellOk, Markable, Marked;
    LastStep(c, op);
    LargestIs(Succeeding(c.ops[op], ComposeCreate));
    var k := Largest(Succeeding(c.ops[op], ComposeCreate));
    assert k in Succeeding(c.ops[op], ComposeCreate);
  }

  /** A creation counts as ready only after a start: one of this attempt that worked, or any while reconciling. */
  lemma ReadyOnlyAfterStart(c: Cell, op: string, container: string)
    requires CellOk(c) && CompleteReady(c, op, container).Ok?
    ensures op in c.ops
    ensures exists k ::
      && k in c.ops[op].steps && k < |c.ops[op].steps| && c.ops[op].steps[k].command == ComposeStart
      && (c.ops[op].phase != "reconcile" ==>
            c.ops[op].steps[k].outcome == Some(StepSucceeded) && c.ops[op].steps[k].attempt == c.ops[op].attempt)
  {
    hide CellOk, Hex64, MayBeReady, MarkReady;
    LastStep(c, op);
    var o := c.ops[op];
    var starts := if o.phase == "reconcile" then Issued(o, ComposeStart) else Succeeding(o, ComposeStart);
    LargestIs(starts);
    assert Largest(starts) in starts;
  }

  /** A directory is recorded once, for its own allocation, by a creation that is executing. */
  lemma BindRecordedOnce(c: Cell, op: string, slot: string, identity: string, evidence: string)
    requires RecordBind(c, op, slot, identity, evidence).Ok?
    ensures op in c.ops && Creates(c.ops[op].kind) && c.ops[op].status == Executing && slot in c.storage
    ensures c.storage[slot].how == Bind && c.storage[slot].identity == identity
    ensures var d := RecordBind(c, op, slot, identity, evidence).value;
      && d == c.(storage := d.storage) && d.storage.Keys == c.storage.Keys
      && d.storage[slot] == c.storage[slot].(evidence := evidence, presence := Present)
      && (forall s | s in c.storage && s != slot :: d.storage[s] == c.storage[s])
      && (forall o, again, e :: RecordBind(d, o, slot, again, e).Err?)
  {
    hide LowerHex64;
  }

  // Doubt ---------------------------------------------------------------------------------------------------

  /** A restart puts exactly the executing operations in doubt, and touches nothing else in the store. */
  lemma RestartDoubtsExecuting(db: Db, i: string, op: string)
    requires HasRow(db, i, op)
    ensures var next := RecoverOnStartup(db);
      && next.owner == db.owner && next.receipts == db.receipts && next.cells.Keys == db.cells.Keys
      && HasRow(next, i, op) && next.cells[i] == db.cells[i].(ops := next.cells[i].ops)
      && next.cells[i].ops.Keys == db.cells[i].ops.Keys
      && var before, after := db.cells[i].ops[op], next.cells[i].ops[op];
      && after == before.(status := after.status)
      && (before.status == Executing ==> after.status == OutcomeUnknown)
      && (before.status != Executing ==> after.status == before.status)
  {
  }

  // Presence --------------------------------------------------------------------------------------------------

  /** Data once looked for stays looked for, and data known to be lost stays lost; nothing else is barred. */
  lemma PresenceMoves(before: Presence, after: Presence)
    ensures MayFollow(before, after) <==>
      (before == Absent ==> after == Absent) && (before != NotMaterialized ==> after != NotMaterialized)
  {
  }

  predicate PresenceGrows(before: map<string, Allocation>, after: map<string, Allocation>) {
    forall slot | slot in before && slot in after ::
      && (before[slot].presence == Absent ==> after[slot].presence == Absent)
      && (before[slot].presence != NotMaterialized ==> after[slot].presence != NotMaterialized)
  }

  lemma SamePresence(storage: map<string, Allocation>)
    ensures PresenceGrows(storage, storage) && PresenceGrows(storage, MarkReady(storage))
    ensures PresenceGrows(storage, Marked(storage)) && PresenceGrows(storage, Overwritten(storage))
  {
  }

  lemma StepPresence(db: Db, t: Txn, i: string)
    requires DbOk(db) && Allowed(db, t) && Apply(db, t).Ok? && i in db.cells
    ensures i in Apply(db, t).value.cells
    ensures var d := Apply(db, t).value.cells[i];
      d.lifecycle != Retired ==> PresenceGrows(db.cells[i].storage, d.storage)
  {
    hide DbOk, CellOk, CommitPlan, Accept, AcceptEdit, AcceptRecovery, Settled, Hold, ToMap, Acceptable, Refused, Taken,
      Hex64, Saw, SawState, Precedes, ChecksAll, Retain, EachReservedOnce, MayBeReady, Markable, Settleable, Inspected,
      Journal.Apply, LowerHex64, MarkReady, Marked, Overwritten, PresenceGrows, AfterCrash;
    SamePresence(db.cells[i].storage);
    if Accepts(t) {
      AcceptanceKeepsRows(db, t, i);
    } else if t.BindPresent? {
      BindPresence(db, t, i);
    } else if t.SetSeen? {
      SeenPresence(db, t, i);
    }
  }

  lemma BindPresence(db: Db, t: Txn, i: string)
    requires Apply(db, t).Ok? && i in db.cells && t.BindPresent?
    ensures i in Apply(db, t).value.cells && PresenceGrows(db.cells[i].storage, Apply(db, t).value.cells[i].storage)
  {
    hide LowerHex64;
  }

  lemma SeenPresence(db: Db, t: Txn, i: string)
    requires Apply(db, t).Ok? && i in db.cells && t.SetSeen?
    ensures i in Apply(db, t).value.cells && PresenceGrows(db.cells[i].storage, Apply(db, t).value.cells[i].storage)
  {
  }

  /** Along every run, until an instance is retired, data known to be lost stays lost and none is unlooked for again. */
  lemma {:induction false} LostStaysLost(states: seq<Db>, txns: seq<Txn>, j: nat, k: nat, i: string)
    requires Run(states, txns) && j <= k < |states| && i in states[j].cells
    ensures i in states[k].cells
    ensures states[k].cells[i].lifecycle != Retired ==> PresenceGrows(states[j].cells[i].storage, states[k].cells[i].storage)
  {
    hide Run, DbOk, Allowed, Apply, PresenceGrows, Later;
    RunLater(states, txns, j, k);
    if j < k {
      assert k < |states| && k - 1 < |txns| by { RunLength(states, txns); }
      LostStaysLost(states, txns, j, k - 1, i);
      StepOfRun(states, txns, k - 1);
      RunLater(states, txns, j, k - 1);
      RunLater(states, txns, k - 1, k);
      var a, b, c := states[j].cells[i], states[k - 1].cells[i], states[k].cells[i];
      assert Later(a, b) && Later(b, c);
      PresenceOnward(states[k - 1], txns[k - 1], i, a, b, c);
    } else {
      SamePresence(states[j].cells[i].storage);
    }
  }

  lemma RunLength(states: seq<Db>, txns: seq<Txn>)
    requires Run(states, txns)
    ensures |states| == |txns| + 1
  {
    hide DbOk, Allowed, Next;
  }

  lemma PresenceOnward(db: Db, t: Txn, i: string, a: Cell, b: Cell, c: Cell)
    requires DbOk(db) && Allowed(db, t) && i in db.cells && db.cells[i] == b
    requires i in Next(db, t).cells && Next(db, t).cells[i] == c && Later(a, b) && Later(b, c)
    requires b.lifecycle != Retired ==> PresenceGrows(a.storage, b.storage)
    ensures c.lifecycle != Retired ==> PresenceGrows(a.storage, c.storage)
  {
    hide DbOk, Allowed, Apply, LaterOps;
    SamePresence(b.storage);
    if Apply(db, t).Ok? { StepPresence(db, t, i); }
  }

  // Acceptance --------------------------------------------------------------------------------------------------

  /** A clone is accepted only from an idle, managed instance that is still as it was shown. */
  lemma CloneNeedsItsSource(db: Db, p: PlanCommit)
    requires CommitPlan(db, p).Ok? && FirstRequest(db, p.receipt) && p.clone.Some?
    ensures var guard := p.clone.value;
      && p.intent.kind == Clone && p.record.cloneSource == Some(guard.instance) && guard.instance in db.cells
      && var c := db.cells[guard.instance];
      && c.scope == p.record.scope && c.target == p.record.target && c.lifecycle == Managed
      && c.revision == guard.revision && CommittedRevision(c) == guard.spec && guard.spec in c.specs
      && forall op | op in c.ops :: Terminal(c.ops[op].status)
  {
    hide FindReceipt, Insertable, Taken, Used, NewCell, FirstRequest, CommittedRevision, Hex64;
    NoReceiptFound(db, p.receipt);
  }

  /** A request that was used for something else is refused as a duplicate and changes nothing. */
  lemma ReusedRequestRefused(db: Db, intent: Intent, receipt: Receipt)
    requires ValidAccept(intent, receipt) && receipt.plan.None? && (receipt.scope, receipt.request) in db.receipts
    requires db.receipts[(receipt.scope, receipt.request)] != receipt
    ensures Accept(db, intent, receipt) == Err(Duplicate)
    ensures Next(db, AcceptIntent(intent, receipt)) == db
  {
    hide ValidAccept;
  }

  /** A new operation begins accepted, with its first attempt, no steps, and exactly what was asked for. */
  lemma AcceptedAsRequested(db: Db, intent: Intent, receipt: Receipt)
    requires Accept(db, intent, receipt).Ok? && FirstRequest(db, receipt)
    ensures var next := Accept(db, intent, receipt).value.0;
      && intent.instance in db.cells && HasRow(next, intent.instance, intent.id)
      && next.cells[intent.instance].ops[intent.id]
         == Operation(intent.kind, Accepted, intent.phase, 1, intent.expected, intent.oldSpec, intent.newSpec, map[])
      && var c, d := db.cells[intent.instance], next.cells[intent.instance];
      && c.lifecycle == Managed && c.revision == intent.expected && c.scope == receipt.scope
      && d.specs == c.specs && d.reservations == c.reservations && d.storage == c.storage && d.applied == c.applied
      && d.lifecycle == (if intent.kind == Delete then Retiring else Managed)
      && d.revision == c.revision + (if intent.kind == Delete then 1 else 0)
  {
    hide FindReceipt, Hex64, Busy, FirstRequest;
    NoReceiptFound(db, receipt);
  }

  /** A recovery is accepted only for the published, selected artifact of the revision in effect. */
  lemma RecoveryNeedsItsArtifact(db: Db, request: RecoveryRequest)
    requires AcceptRecovery(db, request).Ok? && (request.receipt.scope, request.receipt.request) !in db.receipts
    ensures request.valid && request.selected && request.receipt.instance in db.cells
    ensures var c := db.cells[request.receipt.instance];
      && c.lifecycle == Managed && c.applied == Some(request.spec) && c.revision == request.receipt.confirmed
      && forall op | op in c.ops :: Terminal(c.ops[op].status)
  {
  }

  /** A start, stop or restart ends only for a container seen running, stopped or gone, and says which. */
  lemma LifecycleSays(c: Cell, op: string, container: string, runtime: Runtime, observed: bool)
    requires CompleteLifecycle(c, op, container, runtime, observed).Ok?
    ensures observed && op in c.ops && Lifecycles(c.ops[op].kind) && c.ops[op].status == Executing
    ensures c.lifecycle == Managed && c.ops[op].oldSpec == c.applied && runtime in {Ready, Stopped, Gone}
    ensures CompleteLifecycle(c, op, container, runtime, observed).value == c.(ops := c.ops[op := c.ops[op].(
      status := Succeeded,
      phase := if runtime == Ready then "running" else if runtime == Stopped then "stopped" else "absent")])
  {
    hide Hex64;
  }
}
