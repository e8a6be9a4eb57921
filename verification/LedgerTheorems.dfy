/** What the protocol promises its users, over every run. */
module LedgerTheorems {
  import opened Wrappers
  import opened LedgerTypes
  import opened PortEdits
  import opened CellInvariant
  import opened PortEditProofs
  import opened InstanceSteps
  import opened InstanceProofs
  import opened LedgerStore
  import opened StoreProofs
  import opened LedgerRuns
  import Journal

  // Ports ---------------------------------------------------------------------------------------

  /** In every reachable state an endpoint is actively reserved at most once in its scope. */
  lemma PortNeverGivenTwice(
    states: seq<Db>, txns: seq<Txn>, k: nat, i: string, a: ReservationId, j: string, b: ReservationId)
    requires Run(states, txns) && k < |states|
    requires i in states[k].cells && j in states[k].cells && states[k].cells[i].scope == states[k].cells[j].scope
    requires a in states[k].cells[i].reservations && Active(states[k].cells[i].reservations[a])
    requires b in states[k].cells[j].reservations && Active(states[k].cells[j].reservations[b])
    requires states[k].cells[i].reservations[a].at == states[k].cells[j].reservations[b].at
    ensures i == j && a == b
  {
    hide Run, Owned, ReceiptsOk, SpecsOk, OpsOk, CommittedIsBase, StorageOk;
    RunKeeps(states, txns, k);
    OneCell(states[k], i);
    assert i != j ==> Apart(states[k].cells[i].reservations, states[k].cells[j].reservations);
  }

  /**
   * Whenever a port change is settled, committed or restored, the instance holds exactly the endpoints
   * of the revision now in effect, each committed once; a restore leaves that revision as it was.
   */
  lemma SettlementBindsExactly(states: seq<Db>, txns: seq<Txn>, k: nat)
    requires Run(states, txns) && k < |txns| && txns[k].Settle? && Apply(states[k], txns[k]).Ok?
    ensures var i := states[k].owner[txns[k].op];
      && txns[k].op in states[k].owner && i in states[k].cells && i in states[k + 1].cells
      && var c, d := states[k].cells[i], states[k + 1].cells[i];
      && d.applied.Some? && d.applied.value in d.specs
      && ExactlyBound(d.reservations, d.specs[d.applied.value])
      && (txns[k].restore ==> d.applied == c.applied && d.specs == c.specs)
      && (!txns[k].restore ==> d.applied == c.ops[txns[k].op].newSpec)
  {
    hide CellOk, DbOk, Allowed, Hex64, EachReservedOnce, Saw, MayBeReady, Settleable, Settled, ExactlyBound;
    RunKeeps(states, txns, k);
    var t, i := txns[k], states[k].owner[txns[k].op];
    var c := states[k].cells[i];
    OneCell(states[k], i);
    assert FinishChange(c, t.op, t.container, t.restore, t.published).Ok?;
    FinishFacts(c, t.op, t.container, t.restore, t.published);
    PendingParts(c, t.op, t.restore);
    FinishBindsExactly(c, t.op, t.container, t.restore, t.published);
  }

  /** Until a change is settled, the old bindings stay committed through any number of confirmations. */
  lemma OldPortsStayCommitted(states: seq<Db>, txns: seq<Txn>, k: nat, i: string, op: string)
    requires Run(states, txns) && k < |states| && i in states[k].cells
    requires op in states[k].cells[i].ops && Unresolved(states[k].cells[i].ops[op]) && op in states[k].cells[i].pending
    ensures var c := states[k].cells[i];
      && CommittedFor(c.reservations, Ports(c, c.pending[op].base))
      && EachReservedOnce(c.reservations, Ports(c, c.pending[op].base))
      && EachReservedOnce(c.reservations, Ports(c, c.pending[op].candidate))
      && PortsHash(Ports(c, c.pending[op].candidate)) == c.pending[op].hash
  {
    hide CellOk, DbOk, Run, CommittedFor, EachReservedOnce, OnePerEndpoint, MovesHeld;
    RunKeeps(states, txns, k);
    OneCell(states[k], i);
    PendingParts(states[k].cells[i], op, true);
    FinishNeverMiscounts(states[k].cells[i], op, true);
    FinishNeverMiscounts(states[k].cells[i], op, false);
  }

  // Revisions -----------------------------------------------------------------------------------

  /**
   * In every reachable state: the committed revision readers derive is the applied one; an unresolved
   * candidate is the largest saved revision; and no operation can find its own instance stale.
   */
  lemma RevisionsAgree(states: seq<Db>, txns: seq<Txn>, k: nat, i: string)
    requires Run(states, txns) && k < |states| && i in states[k].cells
    ensures var c := states[k].cells[i];
      && CommittedRevision(c) == c.applied.GetOr(1)
      && (c.lifecycle == Retiring <==> exists id :: id in c.ops && Unresolved(c.ops[id]) && c.ops[id].kind == Delete)
      && (forall id | id in c.ops && Unresolved(c.ops[id]) ::
            c.revision == c.ops[id].expected + (if c.ops[id].kind == Delete then 1 else 0))
      && (forall id | id in c.ops && Unresolved(c.ops[id]) && c.ops[id].newSpec.Some? ::
            c.ops[id].newSpec.value == Latest(c))
  {
    hide SpecsOk, ReservationsOk, OpsOk, StorageOk, DbOk, Run, UnresolvedOk, CommittedIsBase, Latest;
    RunKeeps(states, txns, k);
    var c := states[k].cells[i];
    OneCell(states[k], i);
    CommittedRevisionIsBase(c);
    RetiringIffDeleting(c);
    forall id | id in c.ops && Unresolved(c.ops[id])
      ensures c.revision == c.ops[id].expected + (if c.ops[id].kind == Delete then 1 else 0)
      ensures c.ops[id].newSpec.Some? ==> c.ops[id].newSpec.value == Latest(c)
    {
      NeverStale(c, id);
      if c.ops[id].newSpec.Some? { CandidateNeverCollides(c, id); }
    }
  }

  /** The transactions that make every confirmation of the old instance revision stale. */
  ghost predicate Outdates(db: Db, t: Txn, i: string) {
    match t
    case AcceptIntent(intent, receipt) =>
      intent.kind == Delete && receipt.instance == i && FirstRequest(db, receipt)
    case Settle(op, _, _, _) => op in db.owner && db.owner[op] == i
    case FinishRecovery(op, _, _, _) => op in db.owner && db.owner[op] == i
    case FinishDelete(receipt, _) => receipt.instance == i
    case Retitle(instance, _) => instance == i
    case _ => false
  }

  predicate Accepts(t: Txn) { t.CommitNew? || t.AcceptIntent? || t.EditPorts? || t.RecoverFiles? }

  lemma AcceptanceRevision(db: Db, t: Txn, i: string)
    requires Accepts(t) && Apply(db, t).Ok? && i in db.cells
    ensures i in Apply(db, t).value.cells
    ensures Apply(db, t).value.cells[i].revision == db.cells[i].revision + (if Outdates(db, t, i) then 1 else 0)
  {
    hide FindReceipt, ValidPlanCommit, ValidAccept, ValidEdit, Insertable, Taken, CloneRefused, FirstRequest, Busy, Refused,
      Acceptable, ToMap, Hold, NewCell;
    if t.CommitNew? { NoReceiptFound(db, t.plan.receipt); }
    if t.AcceptIntent? { NoReceiptFound(db, t.receipt); }
    if t.CommitNew? && ValidPlanCommit(t.plan) { PlanCommitNames(t.plan); }
    if t.AcceptIntent? && ValidAccept(t.intent, t.receipt) { AcceptNames(t.intent, t.receipt); }
  }

  lemma AcceptNames(intent: Intent, receipt: Receipt)
    requires ValidAccept(intent, receipt)
    ensures receipt.instance == intent.instance && receipt.operation == intent.id
  {
  }

  /** An instance revision moves by one exactly when a settlement, recovery, deletion step or rename succeeds. */
  lemma RevisionCounts(db: Db, t: Txn, i: string)
    requires Apply(db, t).Ok? && i in db.cells
    ensures i in Apply(db, t).value.cells
    ensures Apply(db, t).value.cells[i].revision == db.cells[i].revision + (if Outdates(db, t, i) then 1 else 0)
  {
    hide FindReceipt, CommitPlan, Accept, AcceptEdit, AcceptRecovery, Taken, Refused, Acceptable, ToMap, Hold, Settled,
      SawState, Saw, Precedes, ChecksAll, Retain, Journal.Apply, Hex64, LowerHex64, EachReservedOnce, MayBeReady, Markable;
    if Accepts(t) { AcceptanceRevision(db, t, i); }
  }

  /**
   * In every reachable state an instance has at most one unresolved operation, and every operation's
   * steps are numbered from one, in order of attempts, with only the last one possibly open, and none
   * once it is finished.
   */
  lemma JournalsStaySound(states: seq<Db>, txns: seq<Txn>, k: nat, i: string, op: string)
    requires Run(states, txns) && k < |states| && i in states[k].cells && op in states[k].cells[i].ops
    ensures var o := states[k].cells[i].ops[op];
      && Journal.Numbered(o.steps) && Journal.OpenAtEnd(o.steps) && Journal.AttemptsRise(o)
      && (Terminal(o.status) ==> !Journal.AnyOpen(o.steps))
    ensures forall other | other in states[k].cells[i].ops && Unresolved(states[k].cells[i].ops[other]) ::
      Unresolved(states[k].cells[i].ops[op]) ==> other == op
  {
    hide SpecsOk, ReservationsOk, StorageOk, DbOk, Run, UnresolvedOk, CommittedIsBase;
    RunKeeps(states, txns, k);
    OneCell(states[k], i);
  }

  /** The status, the steps and everything else of a finished operation are the same in every later state. */
  lemma FinishedStaysFinished(states: seq<Db>, txns: seq<Txn>, j: nat, k: nat, i: string, op: string)
    requires Run(states, txns) && j <= k < |states| && i in states[j].cells && op in states[j].cells[i].ops
    requires Terminal(states[j].cells[i].ops[op].status)
    ensures i in states[k].cells && op in states[k].cells[i].ops
      && states[k].cells[i].ops[op] == states[j].cells[i].ops[op]
  {
    hide Run, StorageGrows, Journal.AnyOpen, Journal.Numbered, Journal.OpenAtEnd, Journal.AttemptsRise;
    JournalsStaySound(states, txns, j, i, op);
    RunLater(states, txns, j, k);
    assert LaterRow(states[j].cells[i].ops[op], states[k].cells[i].ops[op]);
  }

  /** Knowledge that storage may hold data is never lost, whatever is recovered, deleted or restarted. */
  lemma StorageNeverForgotten(states: seq<Db>, txns: seq<Txn>, j: nat, k: nat, i: string, slot: string)
    requires Run(states, txns) && j <= k < |states| && i in states[j].cells && slot in states[j].cells[i].storage
    ensures i in states[k].cells && slot in states[k].cells[i].storage
    ensures var before, after := states[j].cells[i].storage[slot], states[k].cells[i].storage[slot];
      && after.identity == before.identity && after.how == before.how
      && Rank(before.initialization) <= Rank(after.initialization)
  {
    hide Run, LaterOps;
    RunLater(states, txns, j, k);
  }

  /** Storage counts as ready only when the creation or clone succeeded and its bindings are in effect. */
  lemma ReadyOnlyAfterCreation(states: seq<Db>, txns: seq<Txn>, k: nat, i: string, slot: string)
    requires Run(states, txns) && k < |states| && i in states[k].cells && slot in states[k].cells[i].storage
    requires states[k].cells[i].storage[slot].initialization == ReadyObserved
    ensures states[k].cells[i].applied.Some?
    ensures exists id :: id in states[k].cells[i].ops && CreationDone(states[k].cells[i].ops[id])
  {
    hide SpecsOk, ReservationsOk, OpsOk, CommittedIsBase, Run, DbOk;
    RunKeeps(states, txns, k);
    OneCell(states[k], i);
  }

  /** No storage resource is ever allocated twice, within an instance or across instances. */
  lemma ResourceNeverAllocatedTwice(states: seq<Db>, txns: seq<Txn>, k: nat, i: string, s: string, j: string, t: string)
    requires Run(states, txns) && k < |states|
    requires i in states[k].cells && s in states[k].cells[i].storage
    requires j in states[k].cells && t in states[k].cells[j].storage
    requires states[k].cells[i].storage[s].identity == states[k].cells[j].storage[t].identity
    ensures i == j && s == t
  {
    hide Run, Owned, ReceiptsOk, SpecsOk, OpsOk, ReservationsOk, CommittedIsBase, PortsApart;
    RunKeeps(states, txns, k);
    OneCell(states[k], i);
    assert i != j ==> ResourcesDiffer(states[k].cells[i].storage, states[k].cells[j].storage);
  }

  // Deletion ------------------------------------------------------------------------------------

  lemma AdmittedDeletion(db: Db, intent: Intent, receipt: Receipt)
    requires Accept(db, intent, receipt).Ok? && FirstRequest(db, receipt) && intent.kind == Delete
    ensures var next := Accept(db, intent, receipt).value.0;
      && receipt.instance in next.cells && receipt.operation in next.cells[receipt.instance].ops
      && next.cells[receipt.instance].ops[receipt.operation].expected == receipt.confirmed
      && next.cells[receipt.instance].revision == receipt.confirmed + 1
      && next.cells[receipt.instance].lifecycle == Retiring
  {
    hide FindReceipt, Hex64, Busy, FirstRequest;
    NoReceiptFound(db, receipt);
  }

  /**
   * A deletion confirmed at some revision retires the instance at exactly two more, with every port
   * released and every allocation's resource, evidence and initialization as they were.
   */
  lemma DeletionEndsAtConfirmedPlusTwo(states: seq<Db>, txns: seq<Txn>, j: nat, k: nat)
    requires Run(states, txns) && j < k < |txns|
    requires txns[j].AcceptIntent? && txns[j].intent.kind == Delete
    requires FirstRequest(states[j], txns[j].receipt) && Apply(states[j], txns[j]).Ok?
    requires txns[k].FinishDelete? && txns[k].receipt == txns[j].receipt && Apply(states[k], txns[k]).Ok?
    ensures var i := txns[j].receipt.instance;
      && i in states[k].cells && i in states[k + 1].cells
      && var c, d := states[k].cells[i], states[k + 1].cells[i];
      && d.lifecycle == Retired && d.revision == txns[j].receipt.confirmed + 2
      && (forall id | id in d.reservations :: !Active(d.reservations[id]))
      && d.storage.Keys == c.storage.Keys
      && forall slot | slot in c.storage ::
           d.storage[slot].identity == c.storage[slot].identity && d.storage[slot].evidence == c.storage[slot].evidence
           && d.storage[slot].initialization == c.storage[slot].initialization
  {
    hide CellOk, DbOk, Allowed, Accept, ChecksAll, Retain, FirstRequest, LaterDb, Journal.AnyOpen;
    var receipt := txns[j].receipt;
    var i, op := receipt.instance, receipt.operation;
    AdmittedDeletion(states[j], txns[j].intent, receipt);
    RunLater(states, txns, j + 1, k);
    RowLater(states[j + 1], states[k], i, op);
    RunKeeps(states, txns, k);
    var c := states[k].cells[i];
    OneCell(states[k], i);
    assert CompleteDelete(c, receipt.scope, op, txns[k].checks).Ok?;
    DeleteRetires(c, receipt.scope, op, txns[k].checks);
  }

  lemma RowLater(db: Db, next: Db, i: string, op: string)
    requires LaterDb(db, next) && i in db.cells && op in db.cells[i].ops
    ensures i in next.cells && op in next.cells[i].ops && LaterRow(db.cells[i].ops[op], next.cells[i].ops[op])
  {
    hide StorageGrows, LaterRow;
  }

  // Exactly-once acceptance ---------------------------------------------------------------------------

  /** Receipts and operations correspond one to one, and each plan of a scope is confirmed at most once. */
  lemma ReceiptsMatchOperations(states: seq<Db>, txns: seq<Txn>, k: nat)
    requires Run(states, txns) && k < |states|
    ensures ReceiptsOk(states[k]) && Owned(states[k])
  {
    hide CellsOk, PortsApart, Run, ReceiptsOk, Owned;
    RunKeeps(states, txns, k);
  }

  /** Any search for a stored receipt by its own request or plan finds it and no other. */
  lemma StoredReceiptFound(db: Db, key: (string, string))
    requires DbOk(db) && key in db.receipts
    ensures var r := db.receipts[key];
      FindReceipt(db, r.scope, r.request, r.plan) == Some(r)
      && (r.plan.Some? ==> forall request | (r.scope, request) !in db.receipts ::
            FindReceipt(db, r.scope, request, r.plan) == Some(r))
  {
    hide CellsOk, PortsApart, Owned;
    var r := db.receipts[key];
    assert ReceiptRow(db, key);
    if r.plan.Some? {
      assert HasPlan(db.receipts[key], r.scope, r.plan.value);
      forall other | other in db.receipts && HasPlan(db.receipts[other], r.scope, r.plan.value) ensures other == key {
        assert other != key ==> !SamePlanRow(db.receipts[other], db.receipts[key]);
      }
    }
  }

  lemma CommitStores(db: Db, p: PlanCommit)
    requires CommitPlan(db, p).Ok? && FirstRequest(db, p.receipt)
    ensures CommitPlan(db, p).value.1 == p.receipt && ValidPlanCommit(p)
    ensures var next := CommitPlan(db, p).value.0;
      (p.receipt.scope, p.receipt.request) in next.receipts
      && next.receipts[(p.receipt.scope, p.receipt.request)] == p.receipt
  {
    hide FindReceipt, ValidPlanCommit, Insertable, Taken, CloneRefused, FirstRequest, NewCell;
    NoReceiptFound(db, p.receipt);
  }

  /**
   * A confirmed plan repeated at any later time, under its own request or under another unused one,
   * is answered with the receipt first stored and leaves the whole store unchanged.
   */
  lemma RepeatedPlanAnswered(states: seq<Db>, txns: seq<Txn>, j: nat, k: nat, again: PlanCommit)
    requires Run(states, txns) && j < k < |states| && txns[j].CommitNew?
    requires FirstRequest(states[j], txns[j].plan.receipt) && Apply(states[j], txns[j]).Ok?
    requires ValidPlanCommit(again) && again.receipt.scope == txns[j].plan.receipt.scope
    requires SamePlan(again.receipt, txns[j].plan.receipt)
    requires again.receipt.request == txns[j].plan.receipt.request
      || (again.receipt.scope, again.receipt.request) !in states[k].receipts
    ensures CommitPlan(states[k], again) == Ok((states[k], txns[j].plan.receipt))
  {
    hide DbOk, Allowed, ValidPlanCommit, FindReceipt, CommitPlan, FirstRequest, Later;
    var stored := txns[j].plan.receipt;
    var key := (stored.scope, stored.request);
    CommitStores(states[j], txns[j].plan);
    RunLater(states, txns, j + 1, k);
    RunKeeps(states, txns, k);
    StoredReceiptFound(states[k], key);
    PlanCommitNames(again);
    PlanRepeats(states[k], again, stored);
  }

  lemma PlanRepeats(db: Db, again: PlanCommit, stored: Receipt)
    requires ValidPlanCommit(again) && SamePlan(again.receipt, stored)
    requires FindReceipt(db, again.receipt.scope, again.receipt.request, again.receipt.plan) == Some(stored)
    ensures CommitPlan(db, again) == Ok((db, stored))
  {
    hide FindReceipt, ValidPlanCommit, CloneRefused, Insertable;
  }

  /** An accepted request repeated at any later time gets its receipt back and changes nothing. */
  lemma RepeatedRequestAnswered(states: seq<Db>, txns: seq<Txn>, j: nat, k: nat)
    requires Run(states, txns) && j < k < |states| && txns[j].AcceptIntent?
    requires FirstRequest(states[j], txns[j].receipt) && Apply(states[j], txns[j]).Ok?
    ensures Accept(states[k], txns[j].intent, txns[j].receipt) == Ok((states[k], txns[j].receipt))
  {
    hide DbOk, Allowed, FindReceipt, Accept, FirstRequest, Later, ValidAccept;
    var receipt := txns[j].receipt;
    AcceptStores(states[j], txns[j].intent, receipt);
    RunLater(states, txns, j + 1, k);
    RunKeeps(states, txns, k);
    StoredReceiptFound(states[k], (receipt.scope, receipt.request));
    AcceptRepeats(states[k], txns[j].intent, receipt);
  }

  lemma AcceptStores(db: Db, intent: Intent, receipt: Receipt)
    requires Accept(db, intent, receipt).Ok? && FirstRequest(db, receipt)
    ensures ValidAccept(intent, receipt)
    ensures var next := Accept(db, intent, receipt).value.0;
      (receipt.scope, receipt.request) in next.receipts && next.receipts[(receipt.scope, receipt.request)] == receipt
  {
    hide FindReceipt, ValidAccept, FirstRequest, Admit;
    NoReceiptFound(db, receipt);
  }

  lemma AcceptRepeats(db: Db, intent: Intent, receipt: Receipt)
    requires ValidAccept(intent, receipt)
    requires FindReceipt(db, receipt.scope, receipt.request, receipt.plan) == Some(receipt)
    ensures Accept(db, intent, receipt) == Ok((db, receipt))
  {
    hide FindReceipt, ValidAccept;
  }

  /** A repeated port edit answers with the caller's receipt: the stored one exactly when these agree. */
  lemma RepeatedEditAnswer(db: Db, receipt: Receipt, request: EditRequest)
    requires DbOk(db) && ValidEdit(receipt, request) && (receipt.scope, receipt.request) in db.receipts
    requires AcceptEdit(db, receipt, request).Ok?
    ensures AcceptEdit(db, receipt, request) == Ok((db, receipt))
    ensures var stored := db.receipts[(receipt.scope, receipt.request)];
      receipt == stored <==> stored.plan.None? && stored.confirmed == receipt.confirmed
  {
    hide CellsOk, PortsApart, Owned, Hex64;
    assert ReceiptRow(db, (receipt.scope, receipt.request));
  }

  // Where a promise needs its caller ------------------------------------------------------------------

  /** A ready instance whose start is executing with its one step still open. */
  function StartingCell(): Cell {
    var created := Operation(Create, Succeeded, "ready", 1, 1, None, Some(1), map[]);
    var step := Step(1, ComposeStart, "c", ContainerRunning, None);
    var start := Operation(Start, Executing, "start", 1, 1, Some(1), None, map[1 := step]);
    Cell("scope", "target", Managed, 1, Some(1), map[1 := map[]], map["create" := created, "start" := start],
         map[], map[], map[])
  }

  lemma StartingCellOk()
    ensures CellOk(StartingCell())
  {
    hide Journal.Sound, OpsOk;
    var c := StartingCell();
    assert c.ops["create"].status == Succeeded && c.ops["create"].newSpec == Some(Base(c));
    assert CreationDone(c.ops["create"]);
    StartingCellOps();
  }

  lemma StartingCellOps()
    ensures OpsOk(StartingCell())
  {
    hide Journal.Sound, UnresolvedOk;
    var c := StartingCell();
    assert c.ops.Keys == {"create", "start"};
    StartingStepsSound();
    StartingUnresolved();
  }

  lemma StartingStepsSound()
    ensures Journal.Sound(StartingCell().ops["create"]) && Journal.Sound(StartingCell().ops["start"])
  {
    assert |StartingCell().ops["start"].steps| == 1;
  }

  lemma StartingUnresolved()
    ensures UnresolvedOk(StartingCell(), "start")
  {
  }

  /**
   * A start can be recorded as succeeded while its step is open, and that step can still change after;
   * the completion itself does not look at the steps.
   */
  lemma StartFinishedWithOpenStep(container: string)
    requires Hex64(container)
    ensures CellOk(StartingCell())
    ensures var r := CompleteLifecycle(StartingCell(), "start", container, InstanceSteps.Ready, true);
      && r.Ok? && r.value.ops["start"].status == Succeeded && Journal.AnyOpen(r.value.ops["start"].steps)
      && exists call :: Journal.Apply(r.value.ops["start"], call).Ok?
           && Journal.Apply(r.value.ops["start"], call).value != r.value.ops["start"]
  {
    hide Hex64, CellOk;
    StartingCellOk();
    var o := CompleteLifecycle(StartingCell(), "start", container, InstanceSteps.Ready, true).value.ops["start"];
    assert 1 in o.steps && o.steps[1].outcome.None?;
    assert |o.steps| == 1;
    Journal.FinishedChangesIffOpen(o);
  }

  const OLD_PORT := Port(Endpoint(LOOPBACK, 2000), 80)

  const NEW_PORT := Port(Endpoint(LOOPBACK, 3000), 80)

  /** A stopped instance with one port and nothing under way. */
  function IdleCell(): Cell {
    var created := Operation(Create, Succeeded, "ready", 1, 1, None, Some(1), map[]);
    Cell("scope", "target", Managed, 1, Some(1), map[1 := map["web" := OLD_PORT]], map["create" := created],
         map[Initial("web") := Reservation(OLD_PORT.at, Committed)], map[], map[])
  }

  const MOVE := EditRequest(1, 1, [("web", NEW_PORT)])

  lemma IdleCellOk()
    ensures CellOk(IdleCell())
  {
    hide OpsOk, ReservationsOk;
    var c := IdleCell();
    assert c.ops["create"].status == Succeeded && c.ops["create"].newSpec == Some(Base(c));
    assert CreationDone(c.ops["create"]);
    IdleOpsOk();
    IdleReservationsOk();
  }

  lemma IdleOpsOk()
    ensures OpsOk(IdleCell())
  {
    var c := IdleCell();
    assert c.ops.Keys == {"create"} && Journal.Sound(c.ops["create"]);
  }

  lemma IdleReservationsOk()
    ensures ReservationsOk(IdleCell())
  {
    var c := IdleCell();
    assert c.reservations.Keys == {Initial("web")} && c.specs[1].Keys == {"web"};
    assert c.reservations[Initial("web")] == Reservation(c.specs[1]["web"].at, Committed);
    assert Occupies(c.specs[1], c.reservations[Initial("web")].at) by { assert c.specs[1]["web"].at == OLD_PORT.at; }
  }

  lemma MoveIsAcceptable()
    ensures Acceptable(IdleCell().specs[1], MOVE.ports) && ToMap(MOVE.ports) == map["web" := NEW_PORT]
  {
    assert MOVE.ports[0] == ("web", NEW_PORT) && ToMap(MOVE.ports[..0]) == map[];
  }

  lemma MoveIsAccepted()
    ensures BeginEdit(IdleCell(), "scope", {}, "edit", MOVE).Ok?
  {
    hide Acceptable, ToMap, Latest;
    var c := IdleCell();
    MoveIsAcceptable();
    LatestIs(c);
    assert c.specs.Keys == {1} && Latest(c) == 1;
    assert CommittedAt(c.reservations, OLD_PORT.at) == {Initial("web")};
  }

  /** A port edit can publish its artifact, fail, be abandoned, and leave its new port reserved without any bindings that use it. */
  lemma AbandonedEditKeepsPort()
    ensures CellOk(IdleCell()) && BeginEdit(IdleCell(), "scope", {}, "edit", MOVE).Ok?
    ensures var d := GivenUpEdit(IdleCell(), "edit", MOVE, "candidate");
      CellOk(d) && d.applied == Some(1) && Base(d) in d.specs && !ExactlyBound(d.reservations, d.specs[Base(d)])
  {
    hide CellOk, BeginEdit, ExactlyBound, GivenUpEdit;
    IdleCellOk();
    MoveIsAccepted();
    GivenUpEditIsNotBound(IdleCell(), "scope", {}, "edit", MOVE, "candidate");
  }

  function CreatedReceipt(hash: string): Receipt {
    Receipt("scope", "first", Some("plan"), 1, hash, "i", "create")
  }

  function MoveReceipt(confirmed: nat, hash: string): Receipt {
    Receipt("scope", "move", None, confirmed, hash, "i", "edit")
  }

  /** A store in which the idle instance has just accepted its edit. */
  ghost function MovedStore(hash: string): Db {
    Db(map["i" := Edited(IdleCell(), "edit", MOVE)], map["create" := "i", "edit" := "i"],
       map[("scope", "first") := CreatedReceipt(hash), ("scope", "move") := MoveReceipt(1, hash)])
  }

  lemma MovedStoreOk(hash: string)
    ensures DbOk(MovedStore(hash))
  {
    hide CellOk, Edited, IdleCell, BeginEdit, ReceiptsOk, Owned;
    IdleCellOk();
    MoveIsAccepted();
    assert "edit" !in IdleCell().ops by { IdleHeader(); }
    BeginKeeps(IdleCell(), "scope", {}, "edit", MOVE);
    assert MovedStore(hash).cells.Keys == {"i"};
    MovedStoreOwned(hash);
    MovedStoreReceipts(hash);
  }

  lemma IdleHeader()
    ensures IdleCell().scope == "scope" && IdleCell().ops.Keys == {"create"}
    ensures Edited(IdleCell(), "edit", MOVE).ops.Keys == {"create", "edit"}
    ensures Edited(IdleCell(), "edit", MOVE).scope == "scope"
  {
    hide ToMap, Hold, Latest;
  }

  lemma MovedStoreOwned(hash: string)
    ensures Owned(MovedStore(hash))
  {
    hide Edited;
    IdleHeader();
    assert MovedStore(hash).owner.Keys == {"create", "edit"} && MovedStore(hash).cells.Keys == {"i"};
  }

  lemma MovedStoreReceipts(hash: string)
    ensures ReceiptsOk(MovedStore(hash))
  {
    hide Edited;
    IdleHeader();
    var db := MovedStore(hash);
    assert db.receipts.Keys == {("scope", "first"), ("scope", "move")} && db.owner.Keys == {"create", "edit"};
    assert db.receipts[("scope", "first")].operation == "create" && db.receipts[("scope", "move")].operation == "edit";
  }

  /** A repeated edit that names another revision is answered with its own receipt, which nobody stored. */
  lemma RepeatedEditAnsweredDifferently(hash: string)
    requires Hex64(hash)
    ensures DbOk(MovedStore(hash))
    ensures AcceptEdit(MovedStore(hash), MoveReceipt(2, hash), MOVE.(expected := 2))
      == Ok((MovedStore(hash), MoveReceipt(2, hash)))
    ensures forall key | key in MovedStore(hash).receipts :: MovedStore(hash).receipts[key] != MoveReceipt(2, hash)
  {
    hide Edited, Hex64;
    MovedStoreOk(hash);
  }
}
