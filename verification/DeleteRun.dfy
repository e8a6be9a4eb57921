/** The coordinator of a deletion: runtime removal, storage checks, absence, and only then retirement. */
module DeleteRun {
  import opened Wrappers
  import opened LedgerTypes
  import opened CellInvariant
  import opened InstanceSteps
  import opened LedgerStore
  import opened StoreProofs
  import opened StoreRows
  import opened LedgerObject
  import Removal = RuntimeRemoval
  import InstanceProofs
  import Journal

  datatype Stage = Remove | CheckStorage | ConfirmAbsent

  datatype StageError = Refused | Unclear

  datatype DeleteError = NotAllowed | InDoubt | Store(conflict: Conflict)

  /**
   * How the external effects of one deletion turn out. The removal sends some changes; if it fails, last
   * is what was recorded of the latest one.
   */
  datatype Effects = Effects(
    changes: seq<Removal.Change>, removal: Option<StageError>, last: Option<StepOutcome>,
    storage: Result<seq<StorageCheck>, StageError>, absence: Option<StageError>)

  predicate Named(changes: seq<Removal.Change>) {
    forall i | 0 <= i < |changes| :: changes[i].id != ""
  }

  predicate ValidDelete(intent: Intent, receipt: Receipt, retain: bool) {
    && retain && intent.kind == Delete && receipt.plan.None? && intent.instance == receipt.instance
    && intent.id == receipt.operation && intent.expected == receipt.confirmed
    && intent.oldSpec.None? && intent.newSpec.None?
  }

  /** Whether the deletion still has to be carried out. */
  function Pending(db: Db, receipt: Receipt): Result<bool, Conflict> {
    var key := (receipt.scope, receipt.request);
    if key !in db.receipts || db.receipts[key] != receipt then Err(InvalidInput)
    else if receipt.instance !in db.cells || receipt.operation !in db.cells[receipt.instance].ops then Err(Missing)
    else
      var c := db.cells[receipt.instance];
      var op := c.ops[receipt.operation];
      if op.kind != Delete || c.scope != receipt.scope then Err(InvalidInput)
      else if op.status == Succeeded && c.lifecycle == Retired then Ok(false)
      else if !(op.status == Accepted || (op.status == Executing && op.attempt > 1)) || c.lifecycle != Retiring
        || op.expected + 1 != c.revision
        || (exists k :: k in op.steps && op.steps[k].outcome in {None, Some(StepUnknown)})
      then Err(InvalidInput)
      else Ok(true)
  }

  function StatusOf(error: StageError): Status {
    match error case Refused => Failed case Unclear => OutcomeUnknown
  }

  function ErrorOf(error: StageError): DeleteError {
    match error case Refused => NotAllowed case Unclear => InDoubt
  }

  // What the effects come to ----------------------------------------------------------------------------

  /** The stages started, up to the first that does not work, and what was wrong with that one. */
  function Trouble(effects: Effects): (seq<Stage>, Option<StageError>) {
    if effects.removal.Some? then ([Remove], effects.removal)
    else if effects.storage.Err? then ([Remove, CheckStorage], Some(effects.storage.error))
    else ([Remove, CheckStorage, ConfirmAbsent], effects.absence)
  }

  function Begun(o: Operation): Operation { o.(status := Executing, phase := "remove_runtime") }

  /** The row once each of these changes was seen to work. */
  function Worked(o: Operation, changes: seq<Removal.Change>): Operation
    decreases |changes|
  {
    if changes == [] then o
    else Removal.Grown(Worked(o, changes[..|changes| - 1]), changes[|changes| - 1])
  }

  /** The row once the latest change was sent, with what is recorded of it. */
  function Ending(o: Operation, c: Removal.Change, last: Option<StepOutcome>): Operation {
    o.(steps := o.steps[|o.steps| + 1 := Removal.StepFor(c, o.attempt).(outcome := last)])
  }

  /** The row when the removal is over. */
  function Written(o: Operation, effects: Effects): Operation {
    var n := |effects.changes|;
    if effects.removal.None? || n == 0 then Worked(o, effects.changes)
    else Ending(Worked(o, effects.changes[..n - 1]), effects.changes[n - 1], effects.last)
  }

  /** The rows of the instance when a pending deletion is over, and the answer. */
  ghost predicate Concluded(start: Db, now: Db, receipt: Receipt, effects: Effects, r: Result<Receipt, DeleteError>) {
    var i, op := receipt.instance, receipt.operation;
    && Names(start, i, op)
    && var c := start.cells[i];
       var written := Written(Begun(c.ops[op]), effects);
       match Trouble(effects).1
       case Some(error) =>
         && r == Err(ErrorOf(error))
         && now == At(start, i, WithRow(c, op, written.(status := StatusOf(error), phase := "delete_check")))
       case None =>
         if ChecksAll(c.storage, effects.storage.value) then
           r == Ok(receipt) && now == At(start, i, Deleted(WithRow(c, op, written), op, effects.storage.value))
         else r == Err(Store(InvalidInput)) && now == At(start, i, WithRow(c, op, written))
  }

  // Journal rows of a removal ---------------------------------------------------------------------------

  lemma {:induction false} WorkedSteps(o: Operation, changes: seq<Removal.Change>)
    requires Removal.Recordable(o) && Named(changes)
    ensures Removal.Recordable(Worked(o, changes)) && Removal.OneStepPerChange(o, Worked(o, changes), changes)
  {
    if changes != [] {
      var rest, c := changes[..|changes| - 1], changes[|changes| - 1];
      WorkedSteps(o, rest);
      assert changes == rest + [c];
      Removal.JournalAccepts(Worked(o, rest), c);
      Removal.NextIsNew(Worked(o, rest));
      Removal.OneMoreStep(o, Worked(o, rest), rest, c);
    }
  }

  lemma EndingAccepted(o: Operation, c: Removal.Change, outcome: StepOutcome)
    ensures Journal.Apply(Removal.Opened(o, c), Journal.Finish(|o.steps| + 1, outcome)) == Ok(Ending(o, c, Some(outcome)))
  {
    assert Journal.Closed(Removal.Opened(o, c), |o.steps| + 1, outcome).steps == Ending(o, c, Some(outcome)).steps;
  }

  lemma PendingIsRecordable(db: Db, receipt: Receipt)
    requires DbOk(db) && Pending(db, receipt) == Ok(true)
    ensures Names(db, receipt.instance, receipt.operation)
    ensures var o := db.cells[receipt.instance].ops[receipt.operation];
      && Removal.Recordable(Begun(o)) && o.kind == Delete && Unresolved(o)
      && Journal.Apply(o, Journal.SetStatus(Executing, "remove_runtime")) == Ok(Begun(o))
  {
    hide PortsApart, ReceiptsOk, CellOk, UnresolvedOk, Journal.Sound, Journal.Apply, Removal.Recordable;
    OneCell(db, receipt.instance);
    var c := db.cells[receipt.instance];
    assert Journal.Sound(c.ops[receipt.operation]) by { CellParts(c); }
    BegunIsRecordable(c.ops[receipt.operation]);
  }

  lemma BegunIsRecordable(o: Operation)
    requires Journal.Sound(o) && Unresolved(o) && forall k | k in o.steps :: o.steps[k].outcome.Some?
    ensures Removal.Recordable(Begun(o))
    ensures Journal.Apply(o, Journal.SetStatus(Executing, "remove_runtime")) == Ok(Begun(o))
  {
    hide Journal.Sound;
    Journal.SameStepsKeep(o, Begun(o));
  }

  /** Once nothing is open, only the storage checks decide whether the instance is retired. */
  lemma RetiresIffChecked(db: Db, receipt: Receipt, effects: Effects, checks: seq<StorageCheck>)
    requires Pending(db, receipt) == Ok(true) && effects.removal.None? && Named(effects.changes)
    requires Removal.Recordable(Begun(db.cells[receipt.instance].ops[receipt.operation]))
    ensures var i, op := receipt.instance, receipt.operation;
      var c := db.cells[i];
      var d := WithRow(c, op, Written(Begun(c.ops[op]), effects));
      RemoveInstance(At(db, i, d), receipt, checks)
        == if ChecksAll(c.storage, checks) then Ok(At(db, i, Deleted(d, op, checks))) else Err(InvalidInput)
  {
    hide ChecksAll, Deleted, Removal.OneStepPerChange;
    var i, op := receipt.instance, receipt.operation;
    var c := db.cells[i];
    WorkedSteps(Begun(c.ops[op]), effects.changes);
    WorkedRow(Begun(c.ops[op]), effects.changes);
    var d := WithRow(c, op, Written(Begun(c.ops[op]), effects));
    AtAt(db, i, d, Deleted(d, op, checks));
  }

  lemma {:induction false} WorkedRow(o: Operation, changes: seq<Removal.Change>)
    ensures Worked(o, changes) == o.(steps := Worked(o, changes).steps)
  {
    if changes != [] { WorkedRow(o, changes[..|changes| - 1]); }
  }

  lemma WrittenRow(o: Operation, effects: Effects)
    ensures Written(o, effects) == o.(steps := Written(o, effects).steps)
  {
    var n := |effects.changes|;
    WorkedRow(o, effects.changes);
    if n > 0 { WorkedRow(o, effects.changes[..n - 1]); }
  }

  // Carrying it out ---------------------------------------------------------------------------------

  /** Records each change as it is sent, and closes its step with what was seen of it. */
  method RunRemoval(ledger: Ledger, receipt: Receipt, effects: Effects, ghost start: Db, ghost o: Operation)
    returns (error: Option<StageError>)
    requires ledger.Valid() && Named(effects.changes) && InRow(ledger.State(), start, receipt, o)
    requires Removal.Recordable(o)
    modifies ledger
    ensures ledger.Valid() && error == effects.removal
    ensures InRow(ledger.State(), start, receipt, Written(o, effects))
  {
    hide DbOk, Removal.Recordable, Removal.StepFor, At, WithRow, Worked, Journal.Apply, LedgerStore.Apply, Next, InRow;
    var n := |effects.changes|;
    var sure := if effects.removal.None? || n == 0 then n else n - 1;
    WorkedNone(o);
    for i := 0 to sure
      invariant ledger.Valid() && InRow(ledger.State(), start, receipt, Worked(o, effects.changes[..i]))
    {
      RunChange(ledger, receipt, effects.changes[i], Some(StepSucceeded), start, o, effects.changes[..i]);
      WorkedMore(o, effects.changes, i);
    }
    if sure < n { RunChange(ledger, receipt, effects.changes[sure], effects.last, start, o, effects.changes[..sure]); }
    assert effects.changes[..n] == effects.changes;
    error := effects.removal;
  }

  /** Only this deletion's row differs from a store. */
  ghost predicate InRow(now: Db, start: Db, receipt: Receipt, o: Operation) {
    && Names(start, receipt.instance, receipt.operation)
    && now == At(start, receipt.instance, WithRow(start.cells[receipt.instance], receipt.operation, o))
  }

  lemma RowIs(now: Db, start: Db, receipt: Receipt, o: Operation)
    requires InRow(now, start, receipt, o)
    ensures Names(now, receipt.instance, receipt.operation)
    ensures now.cells[receipt.instance].ops[receipt.operation] == o
  {
  }

  lemma WorkedNone(o: Operation)
    ensures Worked(o, []) == o
  {
  }

  lemma WorkedMore(o: Operation, changes: seq<Removal.Change>, i: nat)
    requires i < |changes|
    ensures Worked(o, changes[..i + 1]) == Removal.Grown(Worked(o, changes[..i]), changes[i])
    ensures Ending(Worked(o, changes[..i]), changes[i], Some(StepSucceeded)) == Worked(o, changes[..i + 1])
  {
    assert changes[..i + 1][..i] == changes[..i];
    Removal.SucceededStep(changes[i], Worked(o, changes[..i]).attempt);
  }

  /** One change under its own step. */
  method RunChange(
    ledger: Ledger, receipt: Receipt, c: Removal.Change, last: Option<StepOutcome>, ghost start: Db,
    ghost first: Operation, ghost done: seq<Removal.Change>)
    requires ledger.Valid() && c.id != "" && Named(done) && Removal.Recordable(first)
    requires InRow(ledger.State(), start, receipt, Worked(first, done))
    modifies ledger
    ensures ledger.Valid() && InRow(ledger.State(), start, receipt, Ending(Worked(first, done), c, last))
  {
    hide DbOk, Removal.Recordable, At, WithRow, Worked, Journal.Apply, LedgerStore.Apply, Next, InRow,
      Removal.OneStepPerChange;
    ghost var o := Worked(first, done);
    WorkedSteps(first, done);
    RowIs(ledger.State(), start, receipt, o);
    Removal.JournalAccepts(o, c);
    var row := ledger.cells[receipt.instance].ops[receipt.operation];
    var step := Removal.StepFor(c, row.attempt);
    RowWritten(ledger.State(), start, receipt, o, Removal.RecordOf(o, c), Removal.Opened(o, c));
    var recorded := ledger.RecordStep(
      receipt.operation, |row.steps| + 1, row.attempt, step.command, c.id, step.expected);
    if last.None? { return; }
    EndingAccepted(o, c, last.value);
    RowWritten(ledger.State(), start, receipt, Removal.Opened(o, c), Journal.Finish(|o.steps| + 1, last.value),
               Ending(o, c, last));
    var finished := ledger.FinishStep(receipt.operation, |row.steps| + 1, last.value);
  }

  lemma RowWritten(now: Db, start: Db, receipt: Receipt, o: Operation, call: Journal.Call, after: Operation)
    requires InRow(now, start, receipt, o) && Journal.Apply(o, call) == Ok(after)
    ensures InRow(Next(now, Write(receipt.operation, call)), start, receipt, after)
  {
    hide Journal.Apply, LedgerStore.Apply, Next, At, WithRow;
    WriteIs(start, receipt.instance, receipt.operation, o, call, after);
  }

  // The coordinator ---------------------------------------------------------------------------------

  /** Ends the attempt with a status that says how sure it is that nothing more happened. */
  method GiveUp(ledger: Ledger, receipt: Receipt, error: StageError, ghost start: Db, ghost o: Operation)
    returns (r: Result<Receipt, DeleteError>)
    requires ledger.Valid() && Unresolved(o) && InRow(ledger.State(), start, receipt, o)
    modifies ledger
    ensures ledger.Valid() && r == Err(ErrorOf(error))
    ensures InRow(ledger.State(), start, receipt, o.(status := StatusOf(error), phase := "delete_check"))
  {
    hide DbOk, LedgerStore.Apply, Next, InRow;
    RowWritten(ledger.State(), start, receipt, o, Journal.SetStatus(StatusOf(error), "delete_check"),
               o.(status := StatusOf(error), phase := "delete_check"));
    var noted := ledger.SetStatus(receipt.operation, StatusOf(error), "delete_check");
    r := Err(ErrorOf(error));
  }

  method Retire(ledger: Ledger, receipt: Receipt, checks: seq<StorageCheck>) returns (r: Result<Receipt, DeleteError>)
    requires ledger.Valid()
    modifies ledger
    ensures ledger.Valid()
    ensures match RemoveInstance(old(ledger.State()), receipt, checks)
      case Ok(retired) => r == Ok(receipt) && ledger.State() == retired
      case Err(e) => r == Err(Store(e)) && ledger.State() == old(ledger.State())
  {
    hide DbOk, RemoveInstance;
    var completed := ledger.CompleteDelete(receipt, checks);
    r := if completed.Ok? then Ok(receipt) else Err(Store(completed.error));
  }

  /** The effects of a pending deletion, one after the other, and retirement once all three worked. */
  method CarryOut(ledger: Ledger, receipt: Receipt, effects: Effects)
    returns (r: Result<Receipt, DeleteError>, ran: seq<Stage>)
    requires ledger.Valid() && Pending(ledger.State(), receipt) == Ok(true) && Named(effects.changes)
    modifies ledger
    ensures ledger.Valid() && ran == Trouble(effects).0
    ensures Concluded(old(ledger.State()), ledger.State(), receipt, effects, r)
  {
    hide DbOk, Removal.Recordable, Written, ChecksAll, Deleted, LedgerStore.Apply, Next, At, WithRow, Removal.OneStepPerChange;
    ghost var start, o := ledger.State(), ledger.cells[receipt.instance].ops[receipt.operation];
    PendingIsRecordable(start, receipt);
    SameAt(start, receipt.instance, receipt.operation);
    WrittenRow(Begun(o), effects);
    RowWritten(start, start, receipt, o, Journal.SetStatus(Executing, "remove_runtime"), Begun(o));
    var begun := ledger.SetStatus(receipt.operation, Executing, "remove_runtime");
    ran := [Remove];
    var error := RunRemoval(ledger, receipt, effects, start, Begun(o));
    ghost var written := Written(Begun(o), effects);
    if error.Some? {
      r := GiveUp(ledger, receipt, error.value, start, written);
      return;
    }
    ran := ran + [CheckStorage];
    if effects.storage.Err? {
      r := GiveUp(ledger, receipt, effects.storage.error, start, written);
      return;
    }
    ran := ran + [ConfirmAbsent];
    if effects.absence.Some? {
      r := GiveUp(ledger, receipt, effects.absence.value, start, written);
      return;
    }
    RetiresIffChecked(start, receipt, effects, effects.storage.value);
    r := Retire(ledger, receipt, effects.storage.value);
  }

  // Accepting and answering ---------------------------------------------------------------------------

  /** A deletion without a plan is answered, whenever it is, with the receipt it came with. */
  lemma AcceptedAsAsked(db: Db, intent: Intent, receipt: Receipt)
    requires receipt.plan.None? && LedgerStore.Accept(db, intent, receipt).Ok?
    ensures LedgerStore.Accept(db, intent, receipt).value.1 == receipt
  {
    hide ValidAccept, Admit;
  }

  /**
   * A confirmed deletion: accepted once, carried out only while pending, retired exactly when all effects
   * worked and the checks cover the storage, and answered again afterwards without any effect.
   */
  method RunLocked(ledger: Ledger, intent: Intent, receipt: Receipt, retain: bool, effects: Effects)
    returns (r: Result<Receipt, DeleteError>, ran: seq<Stage>)
    requires ledger.Valid() && Named(effects.changes)
    modifies ledger
    ensures ledger.Valid()
    ensures
      var start := old(ledger.State());
      if !ValidDelete(intent, receipt, retain) then r == Err(NotAllowed) && ran == [] && ledger.State() == start
      else
        match LedgerStore.Accept(start, intent, receipt)
        case Err(e) => r == Err(Store(e)) && ran == [] && ledger.State() == start
        case Ok(pair) =>
          match Pending(pair.0, receipt)
          case Err(e) => r == Err(Store(e)) && ran == [] && ledger.State() == pair.0
          case Ok(false) => r == Ok(receipt) && ran == [] && ledger.State() == pair.0
          case Ok(true) => ran == Trouble(effects).0 && Concluded(pair.0, ledger.State(), receipt, effects, r)
  {
    hide DbOk, Concluded, ValidAccept, LedgerStore.Accept, Trouble;
    ran := [];
    if !ValidDelete(intent, receipt, retain) { return Err(NotAllowed), ran; }
    ghost var start := ledger.State();
    var accepted := ledger.Accept(intent, receipt);
    if accepted.Err? { return Err(Store(accepted.error)), ran; }
    AcceptedAsAsked(start, intent, receipt);
    var pending := Pending(Db(ledger.cells, ledger.owner, ledger.receipts), receipt);
    if pending.Err? { return Err(Store(pending.error)), ran; }
    if !pending.value { return Ok(receipt), ran; }
    r, ran := CarryOut(ledger, receipt, effects);
  }

  // What the outcome means ------------------------------------------------------------------------------

  /** An answer of success means a retired instance with nothing reserved and every allocation kept. */
  lemma SuccessMeansRetired(start: Db, now: Db, receipt: Receipt, effects: Effects, r: Result<Receipt, DeleteError>)
    requires DbOk(start) && Pending(start, receipt) == Ok(true) && Named(effects.changes)
    requires Concluded(start, now, receipt, effects, r)
    ensures r.Ok? <==> Trouble(effects).1.None? && ChecksAll(start.cells[receipt.instance].storage, effects.storage.value)
    ensures r.Ok? ==>
      var c, d := start.cells[receipt.instance], now.cells[receipt.instance];
      && d.lifecycle == Retired && d.revision == c.revision + 1
      && (forall id | id in d.reservations :: !Active(d.reservations[id]))
      && d.storage.Keys == c.storage.Keys
      && (forall slot | slot in c.storage ::
            d.storage[slot].identity == c.storage[slot].identity && d.storage[slot].evidence == c.storage[slot].evidence)
      && Removal.OneStepPerChange(Begun(c.ops[receipt.operation]),
           d.ops[receipt.operation].(status := Executing, phase := "remove_runtime"), effects.changes)
  {
    hide DbOk, ChecksAll, Pending, Removal.OneStepPerChange, Removal.Recordable;
    PendingIsRecordable(start, receipt);
    var c := start.cells[receipt.instance];
    if r.Ok? {
      InstanceProofs.RetainIs(c.storage, effects.storage.value);
      WorkedSteps(Begun(c.ops[receipt.operation]), effects.changes);
      WorkedRow(Begun(c.ops[receipt.operation]), effects.changes);
    }
  }

  /** Without success nothing of the instance changed except the journal row. */
  lemma FailureKeepsAll(start: Db, now: Db, receipt: Receipt, effects: Effects, r: Result<Receipt, DeleteError>)
    requires Concluded(start, now, receipt, effects, r) && r.Err?
    ensures receipt.instance in now.cells && receipt.operation in now.cells[receipt.instance].ops
    ensures var d := now.cells[receipt.instance];
      now == At(start, receipt.instance, WithRow(start.cells[receipt.instance], receipt.operation, d.ops[receipt.operation]))
    ensures Unresolved(now.cells[receipt.instance].ops[receipt.operation])
  {
    hide ChecksAll, Written;
    WrittenRow(Begun(start.cells[receipt.instance].ops[receipt.operation]), effects);
  }

  /** Repeating a deletion that is stored accepts nothing anew, so a retired instance is only reported. */
  lemma StoredIsNotAcceptedAgain(db: Db, intent: Intent, receipt: Receipt)
    requires ValidAccept(intent, receipt) && receipt.plan.None? && Pending(db, receipt).Ok?
    ensures LedgerStore.Accept(db, intent, receipt) == Ok((db, receipt))
  {
    hide ValidAccept;
  }

  /** A deletion goes on only while nothing earlier is in doubt, and only for the instance it is retiring. */
  lemma PendingIsCertain(db: Db, receipt: Receipt)
    requires Pending(db, receipt) == Ok(true)
    ensures receipt.instance in db.cells && receipt.operation in db.cells[receipt.instance].ops
    ensures var c := db.cells[receipt.instance];
      var o := c.ops[receipt.operation];
      && o.kind == Delete && c.lifecycle == Retiring && c.scope == receipt.scope && c.revision == o.expected + 1
      && (o.status == Accepted || (o.status == Executing && o.attempt >= 2))
      && forall k | k in o.steps :: o.steps[k].outcome != None && o.steps[k].outcome != Some(StepUnknown)
  {
  }

  /** With a step in doubt, a deletion is refused before any effect. */
  lemma DoubtStopsDeletion(db: Db, receipt: Receipt, k: nat)
    requires receipt.instance in db.cells && receipt.operation in db.cells[receipt.instance].ops
    requires var o := db.cells[receipt.instance].ops[receipt.operation];
      Unresolved(o) && k in o.steps && (o.steps[k].outcome.None? || o.steps[k].outcome == Some(StepUnknown))
    ensures Pending(db, receipt).Err?
  {
  }

  /** What a caller is told is what the row says: refused as failed, in doubt as unknown. */
  lemma AnswerMatchesStatus(start: Db, now: Db, receipt: Receipt, effects: Effects, r: Result<Receipt, DeleteError>)
    requires Concluded(start, now, receipt, effects, r) && Trouble(effects).1.Some?
    ensures receipt.instance in now.cells && receipt.operation in now.cells[receipt.instance].ops
    ensures var status := now.cells[receipt.instance].ops[receipt.operation].status;
      && (Trouble(effects).1 == Some(Unclear) ==> r == Err(InDoubt) && status == OutcomeUnknown)
      && (Trouble(effects).1 == Some(Refused) ==> r == Err(NotAllowed) && status == Failed)
  {
    hide Written;
  }

  /** An effect is asked for only after all effects before it worked. */
  lemma EffectsInOrder(effects: Effects)
    ensures Trouble(effects).0 != [] && Trouble(effects).0[0] == Remove
    ensures CheckStorage in Trouble(effects).0 <==> effects.removal.None?
    ensures ConfirmAbsent in Trouble(effects).0 <==> effects.removal.None? && effects.storage.Ok?
    ensures Trouble(effects).1.None? <==> effects.removal.None? && effects.storage.Ok? && effects.absence.None?
  {
  }
}
