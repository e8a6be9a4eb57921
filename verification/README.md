# ComposeNest change protocol, modelled in Dafny

ComposeNest keeps database containers on one machine and promises never to make two external changes at once, never to
lose data, never to hand out a port twice and never to start over blindly after a crash. Those promises are spread over
many small transactions and drivers, each of which checks only a local condition. This project models them and proves
the promises over every run.

- **Port planning** (`PortSlots`, `PortPlanSpec`, `PortPlanner`, `PortPlanning`, `PortPreview`, `PortAnswers`): the bounded scan with its
  resumable cursor, against a pure greedy plan. The inspector's answer may differ at every question; "steady" is the
  case in which it does not. The clock is any function of the number of times it was read.
- **The ledger** (`LedgerTypes`, `Journal`, `PortEdits`, `InstanceSteps`, `LedgerStore`, `StoreRows`; proofs in `CellInvariant`,
  `PortEditProofs`, `InstanceProofs`, `StoreProofs`, `LedgerRuns`, `LedgerTheorems`, `LedgerEvidence`, `LedgerRequests`; loops
  in `LedgerLoops`; the mutable object in `Ledger`). Rows are grouped in one `Cell` per instance. Every transaction is a function from the old rows to
  the new rows or a conflict, and a method of the class `Ledger` that computes exactly that. A run is any sequence of
  transactions, refused or not, with a restart possible after each; `StoreProofs.Allowed` says what the program has
  established before it issues one.
- **Log sessions** (`LogSessionSteps`, `LogSessionProofs`, `LogSessions`): subscriptions, releases, expiry, shutdown and
  the CLIs as interleaved steps, with each critical section as a method.
- **Artifact publication** (`ArtifactSpec`, `ArtifactStore`): database record, staging tree and target tree, with a crash
  possible before every single action and a separate power loss that spares only what was flushed.
- **Drivers** (`RuntimeRemoval`, `RuntimeRemover`, `NamedVolumes`, `CreateRun`, `DeleteRun`, `CreatePlans`,
  `PortRecoverySpec`, `PortRecoveryProofs`, `PortRecovery`): removal of containers and networks, named-volume creation,
  the create and delete coordinators, plan confirmation, and the recovery of undecided creations and port edits, against
  an engine that may refuse, fail or report success without acting.
- **Encodings** (`Encodings`): the byte strings behind the two confirmation hashes.

## What is taken as given

- Each store transaction is atomic and is rolled back when it fails. The unique indexes and primary keys it relies on are
  those of `migrations/0002_state_store.sql` and `migrations/0003_operation_journal.sql`; here they are guards that answer
  `Duplicate`, and the proofs show which of them can never be what refuses a step.
- One runner at a time works on an instance, so what a caller read under the instance gate still holds in its transaction.
- SHA-256 is collision-free: a digest is a constructor around what was hashed. `Encodings` proves that the hashed bytes
  determine what they stand for.
- Revisions, attempts and sequence numbers are unbounded, and identities are texts without the separators used to join
  them. Ports are 16-bit and scan candidates 32-bit numbers.
- Answers of Docker, the artifact check inside a transaction, the clock and the file system are parameters.

## Where the code promises less than it seems to

- The transaction that completes a start, stop or restart does not look at the steps. By itself it would record success
  over an open step, which could then still change; exactly when the last step was open at the call
  (`LifecycleClosesIffLastClosed`, `StartFinishedWithOpenStep`). Every caller closes the step first
  (`crates/application/src/lifecycle_operation.rs:337`, `crates/adapters/src/recovery_actions.rs:372`), or completes only an
  operation without an open one (`crates/adapters/src/recovery_view.rs:44-52`), so in the runs of the program a finished
  operation never changes (`FinishedStaysFinished`).
- Abandoning a port edit from the journal leaves its new ports held, so reservations equal the bindings in effect exactly
  when nothing is held (`BoundIffNoneHeld`); an edit that is abandoned after its artifact was published always does this (`GivenUpEditIsNotBound`,
  `AbandonedEditKeepsPort`). The next settlement or deletion releases them.
- A repeated port edit answers with the caller's receipt instead of the stored one; the two are equal exactly when the
  stored receipt has no plan and the same confirmed revision (`RepeatedEditAnswer`, `RepeatedEditAnsweredDifferently`).
- A target directory left by a crashed publication is recorded as published without its name being flushed. A power loss
  can then remove it for good, exactly when that name was not yet flushed (`PowerLossIsSafeIffDurable`, `PublishTwice`,
  `PublishedCanBeLost`).
- The port-map encoding identifies an entry exactly when neither text contains a zero byte (`UniqueIffNoZero`).
- The initialization overwrite in port recovery would lower an allocation exactly when a present one was already observed
  ready (`OverwriteLowersIffReady`); the ledger invariant excludes that state while a creation is unresolved.

## Model

| member | source | states |
|---|---|---|
| PortSlots.SortByKeySorts | crates/application/src/host_ports.rs:120-121 | the examination order is a permutation of the slots, ascending by key |
| PortPlanSpec.NoFaultIsWellFormed | crates/application/src/host_ports.rs:122-148 | inputs pass the checks exactly when keys are valid and distinct, explicit ports parse, lie in range and differ |
| PortPlanSpec.FirstDecisiveIsLeast | crates/application/src/host_ports.rs:219-243 | the port that settles a slot is the least unused one at or above the start that is free or cannot be checked |
| PortAnswers.FaultIsNamed | crates/application/src/host_ports.rs:122-148 | a fault names the first slot in key order that has one: the later of two that ask for one port, with the earlier as the one in conflict, or one invalid in itself |
| PortAnswers.RefusalIsFirst | crates/application/src/host_ports.rs:163-177 | the first explicit port in key order that is refused is the answer, with its reason and its check |
| PortAnswers.CandidatesBegin | crates/application/src/host_ports.rs:212-218 | candidates begin one above the current port, or at the recommended one; without either a slot needs input |
| PortAnswers.GreedyStops | crates/application/src/host_ports.rs:205-249 | a greedy plan that is not complete stops at the first automatic slot without a candidate left, or whose least candidate cannot be checked; all before it have their least port |
| PortPlanner.Validate | crates/application/src/host_ports.rs:122-149 | the input loop reports the first fault in key order and otherwise knows every explicit port |
| PortPlanner.CheckExplicit | crates/application/src/host_ports.rs:166-180 | explicit ports already checked are skipped; the first refusal in key order is the answer |
| PortPlanner.Revalidate | crates/application/src/host_ports.rs:182-203 | kept selections were all inspected free in this call; one given up was answered taken and goes on at the later of its old position and the port above; every other position stays |
| PortPlanner.CollectUsed | crates/application/src/host_ports.rs:204-208 | two kept selections never share a port; used ports are the explicit and selected ones |
| PortPlanner.ScanSlot | crates/application/src/host_ports.rs:218-246 | a scan finds the least decisive candidate, remembers where it stopped, and counts exactly the candidates examined |
| PortPlanner.FillAutomatic | crates/application/src/host_ports.rs:209-250 | from a resumable cursor every outcome is the greedy one, and an undisturbed cut consumes the whole attempt limit of remaining work |
| PortPlanner.WorkFallsAt | crates/application/src/host_ports.rs:217-225 | remaining work falls by at least what one slot's cursor advances |
| PortPlanning.PlanWithBudget | crates/application/src/host_ports.rs:112-262 | for any cursor and any inspector: a complete plan covers the slots, is injective, in bounds, honours explicit input, is above the source and was inspected free; a resumable cursor leads to the greedy answer or another resumable cursor |
| PortPlanning.CompleteIsSound | crates/application/src/host_ports.rs:251-262 | what makes a plan complete makes it sound |
| PortPlanning.FilledIsComplete | crates/application/src/host_ports.rs:251-262 | the closing search for an unfilled slot never finds one |
| PortPreview.GreedyTakesLeast | crates/application/src/host_ports.rs:94-110 | in a greedy plan every automatic slot, in key order, has the least port from its start on that is in range, untaken and free |
| PortPreview.Preview | crates/application/src/create_plan.rs:714-749 | feeding each cursor back ends, if it ends, with the greedy answer, and ends when no deadline fires |
| PortPreview.PlanUnbounded | crates/application/src/host_ports.rs:103-110 | one uncut call gives the greedy answer |
| Journal.CallKeeps | crates/adapters/src/operation_journal.rs:439-480 | every journal call keeps steps numbered from one, attempts rising, and only the last step open |
| Journal.CallExtends | crates/adapters/src/operation_journal.rs:526-558 | steps never disappear or move, a known outcome never changes, and no step begins while one is open |
| Journal.RetryStartsFresh | crates/adapters/src/operation_journal.rs:560-603 | a retry begins an attempt that no earlier step belongs to, with nothing open |
| Journal.StartupDoubts | crates/adapters/src/operation_journal.rs:703-725 | after a restart an executing operation is in doubt, every other status is as before, and nothing else changes |
| Journal.FrozenWhenClosed | crates/adapters/src/operation_journal.rs:605-660 | a finished operation with closed steps is changed by no journal call |
| Journal.FinishedChangesIffOpen | crates/adapters/src/operation_journal.rs:526-558 | some call can change a finished operation exactly when a step of it is open |
| Journal.LastClosedMeansAllClosed | crates/adapters/src/create_state.rs:320-332 | looking at the last step alone sees every step that could be open |
| Journal.DecisionsNeedDoubt | crates/adapters/src/operation_journal.rs:560-603 | only an undecided operation can be retried, reconciled or abandoned, and where each leads |
| Journal.AbandonIsCertain | crates/adapters/src/operation_journal.rs:781-821 | only certain operations are abandoned: no deletion, and every step known to have worked or failed |
| Journal.CertainCanBeAbandoned | crates/adapters/src/operation_journal.rs:781-812 | a certain, undecided operation that is no deletion can always be abandoned |
| Journal.RecordIsNext | crates/adapters/src/operation_journal.rs:439-480 | a step is recorded open, under the next number and the current attempt, after all others are closed |
| Journal.OutcomeIsWritten | crates/adapters/src/operation_journal.rs:738-779 | an outcome is written as reported, once for an open step, or again only over doubt |
| Journal.StatusIsSet | crates/adapters/src/operation_journal.rs:605-660 | a status is set only while nothing is final, never to abandoned, and to succeeded only over closed steps |
| PortEdits.AcceptableMoves | crates/adapters/src/port_edit_state.rs:35-65 | an accepted proposal keeps slots, addresses and container ports, is injective and moves some host port |
| LedgerLoops.CheckPorts | crates/adapters/src/port_edit_state.rs:35-65 | the checking loop accepts exactly those proposals |
| LedgerLoops.HoldChanged | crates/adapters/src/port_edit_state.rs:139-147 | the insert loop of an edit succeeds exactly when no moved slot's endpoint is reserved, and holds exactly those |
| LedgerLoops.HoldUnreserved | crates/adapters/src/port_edit_state.rs:207-215 | the insert loop of a confirmation holds exactly the endpoints the instance had not reserved |
| LedgerLoops.ReleaseEach | crates/adapters/src/port_edit_state.rs:276-280 | the release loop frees exactly the committed endpoints of slots that moved |
| LedgerLoops.CountChecks | crates/adapters/src/delete_state.rs:103-114 | storage checks are accepted exactly when each allocation has one and nothing else is checked |
| LedgerLoops.RetainEach | crates/adapters/src/delete_state.rs:115-133 | the loop over checks retains each allocation in the condition found |
| LedgerLoops.InsertPorts | crates/adapters/src/state_store.rs:315-338 | the port rows of a new instance are inserted exactly when slots and endpoints are distinct and free |
| LedgerLoops.InsertStorage | crates/adapters/src/state_store.rs:349-361 | the storage rows of a new instance are inserted exactly when slots and resources differ and no resource is in use |
| LedgerLoops.SearchPlan | crates/adapters/src/operation_journal.rs:279-296 | a plan's receipt is found whenever there is one |
| CellInvariant.CommittedRevisionIsBase | crates/adapters/src/query_service.rs:121-123 | the committed revision readers derive is the one in effect |
| CellInvariant.JournalKeeps | crates/adapters/src/operation_journal.rs:439-660 | journal calls keep the instance invariant |
| PortEditProofs.BeginKeeps | crates/adapters/src/port_edit_state.rs:81-160 | beginning an edit keeps the instance invariant |
| PortEditProofs.BeginNeverMiscounts | crates/adapters/src/port_edit_state.rs:126-130 | the count of committed reservations can never refuse an edit |
| PortEditProofs.CandidateNeverCollides | crates/adapters/src/port_edit_state.rs:202-206 | an unresolved candidate is the largest revision, so the next one is unused, and so are its reservation identities |
| PortEditProofs.ConfirmHolds | crates/adapters/src/port_recovery.rs:271-290 | with the check made before confirming, every slot that differs from the old bindings is held for the change |
| PortEditProofs.ConfirmKeeps | crates/adapters/src/port_edit_state.rs:186-221 | confirming other ports keeps the instance invariant |
| PortEditProofs.SettleOne | crates/adapters/src/port_edit_state.rs:276-282 | through the three updates a reservation ends committed if the new bindings use it and released otherwise |
| PortEditProofs.SettledIsBound | crates/adapters/src/port_edit_state.rs:276-282 | settling leaves exactly the new endpoints, one committed reservation each |
| PortEditProofs.FinishNeverMiscounts | crates/adapters/src/port_edit_state.rs:265-275 | neither the reservation count nor the hash can refuse a settlement or a restore |
| PortEditProofs.FinishBindsExactly | crates/adapters/src/port_edit_state.rs:238-293 | after a settlement the active reservations are exactly the applied bindings; a restore changes neither revision nor bindings |
| PortEditProofs.FinishKeeps | crates/adapters/src/port_edit_state.rs:238-293 | settling keeps the instance invariant |
| PortEditProofs.BoundIffNoneHeld | crates/adapters/src/operation_journal.rs:781-821 | reservations equal the bindings in effect exactly when none is merely held |
| PortEditProofs.AbandonLeavesHeld | crates/adapters/src/operation_journal.rs:781-821 | an abandoned edit that moved a port leaves reservations beyond the bindings |
| PortEditProofs.GivenUpEditIsNotBound | crates/adapters/src/operation_journal.rs:781-821 | every edit that publishes its artifact, fails and is abandoned leaves reservations beyond the bindings in effect |
| InstanceProofs.NewCellKeeps | crates/adapters/src/state_store.rs:228-365 | a new instance satisfies the invariant and has exactly its planned endpoints committed |
| InstanceProofs.AdmitKeeps | crates/adapters/src/operation_journal.rs:341-405 | accepting lifecycle, recovery and delete operations keeps the instance invariant |
| InstanceProofs.SetPresenceKeeps | crates/adapters/src/state_store.rs:781-833 | recording presence keeps the invariant and what is known of initialization |
| InstanceProofs.RecordBindKeeps | crates/adapters/src/create_state.rs:197-243 | recording a created directory keeps the invariant and what is known of initialization |
| InstanceProofs.MarkKeeps | crates/adapters/src/create_state.rs:245-302 | marking possible initialization keeps the invariant and lowers nothing |
| InstanceProofs.OverwriteKeeps | crates/adapters/src/port_recovery.rs:513-514 | the overwrite before a recovered start lowers nothing while the creation is unresolved |
| InstanceProofs.OverwriteLowersIffReady | crates/adapters/src/port_recovery.rs:513-514 | exactly when the overwrite would lower an allocation |
| InstanceProofs.CompleteReadyKeeps | crates/adapters/src/create_state.rs:304-403 | completing a creation keeps the invariant, applies revision one and lowers nothing |
| InstanceProofs.CompleteLifecycleKeeps | crates/adapters/src/lifecycle_state.rs:64-133 | completing a start, stop or restart whose steps are closed keeps the instance invariant |
| InstanceProofs.LifecycleClosesIffLastClosed | crates/adapters/src/lifecycle_state.rs:84-98 | it leaves an open step exactly when the last step was open |
| InstanceProofs.CompleteRecoveryKeeps | crates/adapters/src/external_recovery_state.rs:139-170 | completing a recovery keeps the instance invariant |
| InstanceProofs.DeleteRetires | crates/adapters/src/delete_state.rs:66-201 | deletion ends retired at two above the accepted revision, every port released, every allocation's resource and evidence kept |
| InstanceProofs.DeleteRecordsChecks | crates/adapters/src/delete_state.rs:115-133 | every allocation is retained in the condition its one check found |
| InstanceProofs.DeleteKeeps | crates/adapters/src/delete_state.rs:66-201 | deletion keeps the instance invariant and what is known of initialization |
| InstanceProofs.RenameKeeps | crates/adapters/src/state_store.rs:870-915 | renaming keeps the instance invariant |
| InstanceProofs.RetiringIffDeleting | crates/adapters/src/operation_journal.rs:368-384 | an instance is retiring exactly while a deletion of it is unresolved |
| InstanceProofs.NeverStale | crates/adapters/src/operation_journal.rs:357-362 | while an operation is unresolved the revision is the one it expects |
| StoreProofs.ConfirmOtherKeeps | crates/adapters/src/port_edit_state.rs:186-221 | a guarded confirmation keeps every instance's endpoints apart |
| StoreProofs.RestartKeeps | crates/adapters/src/operation_journal.rs:703-725 | startup recovery keeps the store invariant |
| StoreProofs.StepKeeps | crates/adapters/src/operation_journal.rs:306-821 | every transaction the program issues keeps the store invariant |
| LedgerRuns.RunKeeps | crates/adapters/src/operation_journal.rs:703-725 | every state of every run is sound, wherever it was interrupted |
| LedgerRuns.RunLater | crates/adapters/src/operation_journal.rs:526-821 | along a run saved bindings never change, requests and finished closed operations stay, storage knowledge grows, retirement is final |
| LedgerTheorems.PortNeverGivenTwice | migrations/0002_state_store.sql:103-104 | in every reachable state an endpoint is actively reserved at most once in its scope |
| LedgerTheorems.SettlementBindsExactly | crates/adapters/src/port_edit_state.rs:238-293 | in every run a settlement leaves exactly the applied bindings, one committed reservation each |
| LedgerTheorems.OldPortsStayCommitted | crates/adapters/src/port_edit_state.rs:207-215 | through any number of confirmations the old bindings stay committed, so no count or hash check can fail |
| LedgerTheorems.RevisionsAgree | crates/adapters/src/query_service.rs:121-123 | derived and applied revision agree, candidates are the largest revision, no operation turns stale |
| LedgerTheorems.RevisionCounts | crates/adapters/src/state_store.rs:870-915 | an instance revision moves by one exactly on settlement, recovery, the two deletion steps and rename |
| LedgerTheorems.JournalsStaySound | crates/adapters/src/operation_journal.rs:439-480 | in every run at most one operation is unresolved per instance, every journal is well formed, and a finished operation has no open step |
| LedgerTheorems.FinishedStaysFinished | crates/adapters/src/operation_journal.rs:605-660 | a finished operation, with its status and all its steps, is the same in every later state |
| LedgerTheorems.StorageNeverForgotten | crates/adapters/src/create_state.rs:277-297 | initialization never decreases along a run, through recovery, deletion and restart |
| LedgerTheorems.ResourceNeverAllocatedTwice | migrations/0002_state_store.sql:106-110 | in every reachable state a storage resource belongs to one allocation of one instance |
| LedgerTheorems.ReadyOnlyAfterCreation | crates/adapters/src/create_state.rs:351-390 | storage counts as ready only when the creation succeeded and bindings are applied |
| LedgerTheorems.DeletionEndsAtConfirmedPlusTwo | crates/adapters/src/delete_state.rs:143-164 | a deletion confirmed at a revision retires the instance at two more, with data kept and ports released |
| LedgerTheorems.ReceiptsMatchOperations | migrations/0003_operation_journal.sql:49-61 | receipts and operations correspond one to one and a plan is confirmed at most once per scope |
| LedgerTheorems.StoredReceiptFound | crates/adapters/src/operation_journal.rs:279-296 | the search by request or plan finds the stored receipt and no other |
| LedgerTheorems.RepeatedPlanAnswered | crates/adapters/src/operation_journal.rs:105-119 | a confirmed plan repeated at any later time gets the stored receipt and changes nothing |
| LedgerTheorems.RepeatedRequestAnswered | crates/adapters/src/operation_journal.rs:334-349 | an accepted request repeated at any later time gets its receipt and changes nothing |
| LedgerTheorems.RepeatedEditAnswer | crates/adapters/src/port_edit_state.rs:103-112 | when a repeated edit's answer equals the stored receipt |
| LedgerTheorems.RepeatedEditAnsweredDifferently | crates/adapters/src/port_edit_state.rs:103-112 | a concrete repeated edit that is answered with a receipt nobody stored |
| LedgerTheorems.StartFinishedWithOpenStep | crates/adapters/src/lifecycle_state.rs:84-98 | a concrete start that is recorded as succeeded over an open step which can still change |
| LedgerTheorems.AbandonedEditKeepsPort | crates/adapters/src/operation_journal.rs:781-821 | a concrete abandoned edit whose new port stays reserved without any bindings that use it |
| LedgerEvidence.SettlementRows | crates/adapters/src/port_edit_state.rs:238-293 | in every run a settlement ends its row succeeded or abandoned; a creation or clone leaves every allocation ready and otherwise unchanged, an edit leaves storage as it was |
| LedgerEvidence.SettledRows | crates/adapters/src/port_edit_state.rs:281-292 | a settlement changes only its own row, whose status and phase say how it ended, and storage as its kind demands |
| LedgerEvidence.SuccessWasSeen | crates/adapters/src/port_edit_state.rs:247-262 | in every run an operation that becomes succeeded has no open step, and a creation, edit or recovery saw at last, in the same attempt, what it wanted |
| LedgerEvidence.SettledWasSeen | crates/adapters/src/port_edit_state.rs:238-275 | a settlement is accepted only at the expected revision, for a published artifact and the container seen last |
| LedgerEvidence.RecoveredWasSeen | crates/adapters/src/external_recovery_state.rs:139-170 | a recovery is finished only for the container seen last, with its artifact published |
| LedgerEvidence.CreationMakesReady | crates/adapters/src/create_state.rs:351-390 | in every run a creation that becomes succeeded leaves every allocation ready, each of which was present and marked before |
| LedgerEvidence.MarkedOnlyAfterCreation | crates/adapters/src/create_state.rs:255-276 | storage is marked only after a creation step of this attempt that worked, and a look after it |
| LedgerEvidence.ReadyOnlyAfterStart | crates/adapters/src/create_state.rs:333-350 | a creation counts as ready only after a start: one of this attempt that worked, or any while reconciling |
| LedgerEvidence.BindRecordedOnce | crates/adapters/src/create_state.rs:197-243 | a directory is recorded once, for its own allocation, by a creation that is executing |
| LedgerEvidence.RestartDoubtsExecuting | crates/adapters/src/operation_journal.rs:703-725 | a restart puts exactly the executing operations in doubt and touches nothing else in the store |
| LedgerEvidence.PresenceMoves | crates/adapters/src/state_store.rs:781-833 | presence may change in every way but two: a loss is never taken back, and what was once looked for never counts as not yet made |
| LedgerEvidence.LostStaysLost | crates/adapters/src/state_store.rs:781-833 | along every run, until an instance is retired, data known to be lost stays lost |
| LedgerEvidence.CloneNeedsItsSource | crates/adapters/src/operation_journal.rs:130-165 | a clone is accepted only from an idle, managed instance that is still as it was shown |
| LedgerEvidence.ReusedRequestRefused | crates/adapters/src/operation_journal.rs:334-349 | a request that was used for something else is refused as a duplicate and changes nothing |
| LedgerEvidence.AcceptedAsRequested | crates/adapters/src/operation_journal.rs:341-405 | a new operation begins accepted, in its first attempt and without steps, exactly as asked; only a deletion moves lifecycle and revision |
| LedgerEvidence.RecoveryNeedsItsArtifact | crates/adapters/src/external_recovery_state.rs:73-122 | a recovery is accepted only on an idle instance and for the published, selected artifact of the revision in effect |
| LedgerEvidence.LifecycleSays | crates/adapters/src/lifecycle_state.rs:64-133 | a start, stop or restart ends only for a container seen running, stopped or gone, and its phase says which |
| LedgerRequests.EditAsRequested | crates/adapters/src/port_edit_state.rs:81-160 | an edit is accepted only for an idle, managed instance that is still as it was shown; it adds one candidate, one row and held ports, and nothing takes effect |
| LedgerRequests.ReusedEditRefused | crates/adapters/src/port_edit_state.rs:103-112 | a request that was used for another edit is refused as a duplicate and changes nothing |
| LedgerRequests.ConfirmedAsRequested | crates/adapters/src/port_edit_state.rs:186-221 | other ports are confirmed only for the undecided change of the stored receipt at its own candidate; its row then waits for a decision with all its steps, and nothing takes effect |
| LedgerRequests.RemovalNeedsReceipt | crates/adapters/src/delete_state.rs:66-102 | only the stored receipt of an executing deletion with closed steps retires its instance |
| LedgerRequests.OverwriteMarksPresent | crates/adapters/src/port_recovery.rs:513-514 | before a recovered start exactly what is present is marked as possibly holding data |
| LedgerObject.Ledger.CommitPlan | crates/adapters/src/operation_journal.rs:54-197 | computes the commit transaction and keeps the store sound |
| LedgerObject.Ledger.Accept | crates/adapters/src/operation_journal.rs:306-412 | computes acceptance and keeps the store sound |
| LedgerObject.Ledger.BeginPortEdit | crates/adapters/src/port_edit_state.rs:81-160 | computes the start of an edit and keeps the store sound |
| LedgerObject.Ledger.BeginExternalRecovery | crates/adapters/src/external_recovery_state.rs:73-122 | computes the acceptance of a recovery and keeps the store sound |
| LedgerObject.Ledger.RecordStep | crates/adapters/src/operation_journal.rs:439-480 | computes the step record and keeps the store sound |
| LedgerObject.Ledger.FinishStep | crates/adapters/src/operation_journal.rs:526-558 | closes an open step once |
| LedgerObject.Ledger.Retry | crates/adapters/src/operation_journal.rs:560-603 | begins the next attempt and returns its number |
| LedgerObject.Ledger.SetStatus | crates/adapters/src/operation_journal.rs:605-660 | moves an unresolved operation between unresolved statuses |
| LedgerObject.Ledger.RecoverOnStartup | crates/adapters/src/operation_journal.rs:703-725 | leaves nothing executing and lists exactly the unresolved operations; `RestartDoubtsExecuting` says what became of each |
| LedgerObject.Ledger.ReconcileStep | crates/adapters/src/operation_journal.rs:738-779 | settles an open or unknown step of an undecided operation |
| LedgerObject.Ledger.AbandonVerified | crates/adapters/src/operation_journal.rs:781-821 | abandons only undecided, closed and known operations that are not deletions |
| LedgerObject.Ledger.ConfirmPortRecovery | crates/adapters/src/port_edit_state.rs:186-221 | computes the confirmation and returns the new candidate |
| LedgerObject.Ledger.FinishChange | crates/adapters/src/port_edit_state.rs:238-293 | computes settlement and restore; `SettlementRows` says what that does to the row and to storage |
| LedgerObject.Ledger.RecordBindMaterialization | crates/adapters/src/create_state.rs:197-243 | records one created directory |
| LedgerObject.Ledger.MarkMayHaveInitialized | crates/adapters/src/create_state.rs:245-302 | marks storage before a start, behind its guards |
| LedgerObject.Ledger.OverwriteInitialization | crates/adapters/src/port_recovery.rs:513-514 | the unguarded mark of port recovery |
| LedgerObject.Ledger.CompleteReady | crates/adapters/src/create_state.rs:304-403 | computes the end of a creation |
| LedgerObject.Ledger.CompleteLifecycle | crates/adapters/src/lifecycle_state.rs:64-133 | computes the end of a start, stop or restart and keeps the store sound, once the last step is closed |
| LedgerObject.Ledger.CompleteExternalRecovery | crates/adapters/src/external_recovery_state.rs:139-170 | computes the end of a recovery |
| LedgerObject.Ledger.CompleteDelete | crates/adapters/src/delete_state.rs:66-201 | computes retirement |
| LedgerObject.Ledger.SetStoragePresence | crates/adapters/src/state_store.rs:781-833 | records presence along the allowed transitions only |
| LedgerObject.Ledger.UpdateInstance | crates/adapters/src/state_store.rs:870-915 | renames only an idle managed instance at its current revision |
| CreatePlansObject.CreatePlans.CommitPlan | crates/application/src/create_plan.rs:182-318 | stored receipts answer first and change nothing; otherwise it succeeds exactly for an unexpired plan with the ports just shown whose identities, endpoints and resources are all free, and then adds exactly the new instance and its receipt |
| CreatePlansObject.CreatePlans.Build | crates/application/src/create_plan.rs:216-285 | an instance is built exactly when the plan is as shown and the confirmation is complete; each refusal has its own code |
| CreatePlansObject.AssignPorts | crates/application/src/create_plan.rs:255-270 | each slot of the template gets its confirmed port once, exactly when every slot has one |
| CreatePlansObject.StoreTakesIff | crates/adapters/src/operation_journal.rs:54-197 | the store takes a built plan exactly when it is valid and nothing it needs is claimed |
| CreatePlansObject.RepeatedConfirmation | crates/application/src/create_plan.rs:189-215 | a confirmation is answered alike in every later state of the store, whatever became of the plan |
| CreatePlansObject.ReuseIsRefused | crates/application/src/create_plan.rs:189-215 | a request or a plan that served for something else is refused under its own code; an answer is a receipt of this very confirmation |
| CreatePlansObject.AllocatedAsPlanned | crates/adapters/src/state_store.rs:349-361 | a new instance has exactly the storage offered for it, by the planned method, not yet made and never started |
| LogSessionProofs.StepKeeps | crates/adapters/src/log_subscription.rs:63-239 | every step of every participant keeps the session invariant |
| LogSessionProofs.AtMostTwoLive | crates/adapters/src/log_subscription.rs:189-214 | in every interleaving at most two CLIs are live, each held by its own entry |
| LogSessionProofs.PublishFindsOwnEntry | crates/adapters/src/log_subscription.rs:226-229 | the registration lookup never misses and never meets another subscription's entry |
| LogSessionProofs.EntryLeavesOnlyWhenSpent | crates/adapters/src/log_subscription.rs:63-87 | an entry leaves only when its CLI is confirmed ended or can never be spawned |
| LogSessionProofs.SilentAfterShutdown | crates/adapters/src/log_subscription.rs:103-126 | after a successful shutdown nothing is live and nothing ever starts again |
| LogSessionProofs.OwnEntriesClosed | crates/adapters/src/log_subscription.rs:89-101 | closing a window closes its own entries and no others; without a window, all of them |
| LogSessionProofs.ExpiredIsForgotten | crates/adapters/src/log_subscription.rs:63-87 | expiry forgets a late or closing entry exactly when its end is certain |
| LogSessionProofs.ForeignReleaseRefused | crates/adapters/src/log_subscription.rs:128-139 | releasing another window's entry changes nothing but the refusal itself |
| LogSessionProofs.StartsAreBarred | crates/adapters/src/log_subscription.rs:189-199 | nothing starts during shutdown, while anything is being closed, over capacity, or under a name in use |
| LogSessionsObject.LogSessions.Subscribe | crates/adapters/src/log_subscription.rs:182-214 | a place is reserved exactly when the map admits it |
| LogSessionsObject.LogSessions.Publish | crates/adapters/src/log_subscription.rs:226-238 | stores a stream in the caller's own entry |
| LogSessionsObject.LogSessions.GiveUp | crates/adapters/src/log_subscription.rs:217-225 | a failed start frees its place unless it is being closed |
| LogSessionsObject.LogSessions.Expire | crates/adapters/src/log_subscription.rs:63-87 | forgets exactly the closing entries whose end is certain |
| LogSessionsObject.LogSessions.CloseOwner | crates/adapters/src/log_subscription.rs:89-101 | closes exactly a window's entries |
| LogSessionsObject.LogSessions.Release | crates/adapters/src/log_subscription.rs:128-139 | first part of a release |
| LogSessionsObject.LogSessions.Take | crates/adapters/src/log_subscription.rs:149-154 | takes the stream of the entry seen before and of no other |
| LogSessionsObject.LogSessions.Remove | crates/adapters/src/log_subscription.rs:163-170 | removes the entry seen before and no other |
| LogSessionsObject.LogSessions.Shutdown | crates/adapters/src/log_subscription.rs:103-117 | rejects new starts and closes every entry |
| ArtifactStoreObject.ArtifactStore.Publish | crates/adapters/src/artifact_store.rs:80-220 | crashed after any action or not: targets nobody edited equal their records, public is recorded only with a complete target, an edited target or other input changes nothing, a lost public target is never rebuilt, and an uncrashed call answers the verdict |
| ArtifactStoreObject.ArtifactStore.PublishThroughCrashes | crates/adapters/src/artifact_store.rs:77-80 | repeating one publication through any crashes ends published with exactly the input bytes |
| ArtifactStoreObject.ArtifactStore.PrepareStage | crates/adapters/src/artifact_store.rs:189-207 | whatever a crash left, staging ends as the expected files, all flushed |
| ArtifactStoreObject.ArtifactStore.WriteStage | crates/adapters/src/artifact_store.rs:451-462 | writes and flushes every file |
| ArtifactStoreObject.ArtifactStore.RecordExpected | crates/adapters/src/artifact_store.rs:129-176 | the record is inserted once and otherwise must match |
| ArtifactStoreObject.ArtifactStore.ConfirmTarget | crates/adapters/src/artifact_store.rs:317-338 | only staged or public records become public |
| ArtifactStoreObject.ArtifactStore.Reconcile | crates/adapters/src/artifact_store.rs:223-227 | whatever is in place, it is recorded as public exactly when it passes the full check, and then its files are the recorded ones |
| ArtifactStoreObject.PublishTwice | crates/adapters/src/artifact_store.rs:181-217 | for every input: a publication cut off before the new name was flushed and then repeated is done and complete, and a power loss can still take it away for good |
| ArtifactSpec.ResumableSucceeds | crates/adapters/src/artifact_store.rs:77-80 | a resumable publication succeeds when it is not interrupted |
| ArtifactSpec.PowerLossKeepsDisk | crates/adapters/src/artifact_store.rs:213-217 | a power loss leaves every present target equal to its record |
| ArtifactSpec.PowerLossIsSafeIffDurable | crates/adapters/src/artifact_store.rs:181-187 | when a power loss can leave a publication nothing completes, for any number of revisions published by one operation |
| ArtifactSpec.PublishedCanBeLost | crates/adapters/src/artifact_store.rs:181-187 | a concrete sound disk with a published artifact that a power loss takes away for good |
| ArtifactSpec.VerifyTellsApart | crates/adapters/src/artifact_store.rs:245-297 | the full check says unavailable exactly for what is missing, modified exactly for what differs from its record |
| ArtifactSpec.DoneIff | crates/adapters/src/artifact_store.rs:80-220 | exactly when an uninterrupted publication is done |
| ArtifactSpec.AcceptedPathsStayBelow | crates/adapters/src/artifact_store.rs:371-382 | an accepted path stays below the artifact's directory, one level for each of its parts |
| RuntimeRemover.Remover.RemoveRuntime | crates/adapters/src/docker_delete.rs:230-316 | on every return: no change is sent unless everything listed is owned and no foreign endpoint is attached, a container is stopped before it is dropped unless it had ended, only what runs is stopped, and each change is accounted for by its own step, open or in doubt when it was not reported; success leaves nothing of the instance; with an engine that answers and obeys it succeeds exactly for an entirely owned runtime |
| RuntimeRemover.Remover.VerifyAll | crates/adapters/src/docker_delete.rs:258-268 | passes only an entirely owned runtime |
| RuntimeRemover.Remover.Send | crates/adapters/src/docker_delete.rs:170-218 | a change is sent only under its own recorded step, which stays open, or is recorded as unknown when the change was not reported |
| RuntimeRemover.EffectProgresses | crates/adapters/src/docker_delete.rs:269-306 | a change to a verified resource leaves the rest verified and others untouched |
| RuntimeRemover.HalfOwnedContainerSpoils | crates/adapters/src/docker_delete.rs:261-263 | one container that answers to the instance without being wholly its own bars every change |
| RuntimeRemover.HalfOwnedNetworkSpoils | crates/adapters/src/docker_delete.rs:264-268 | so does a network that is only half its own, or one with a stranger on it |
| RuntimeRemoval.JournalAccepts | crates/adapters/src/docker_delete.rs:170-228 | the journal accepts each step of a removal and its success |
| RuntimeRemoval.OneMoreStep | crates/adapters/src/docker_delete.rs:170-228 | one more change means one more succeeded step |
| NamedVolumes.VolumeDriver.Ensure | crates/adapters/src/named_volumes.rs:78-190 | a create command is sent only when every earlier attempt is known to have failed, and never once one succeeded; after an inconclusive command no attempt may create again, after a conclusive failure every later one may; success, loss and absence each happen under their exact condition |
| NamedVolumes.VolumeDriver.Create | crates/adapters/src/named_volumes.rs:138-189 | the command goes out under its own earlier step and at most once; the step is closed as succeeded exactly for an owned volume, as failed exactly when it was surely not made, and as unknown otherwise |
| NamedVolumes.VolumeDriver.TryCreate | crates/adapters/src/named_volumes.rs:125-190 | a first or further attempt: only a conclusive failure leaves the way open for another |
| NamedVolumes.VolumeDriver.InspectOnly | crates/adapters/src/named_volumes.rs:192-229 | inspection never sends a create command, closes steps only for an owned volume, and records presence exactly as the look and the steps tell |
| NamedVolumes.VolumeDriver.CloseOpenCreations | crates/adapters/src/named_volumes.rs:435-450 | a volume found closes exactly the open creation steps |
| NamedVolumes.CallKeepsSent | crates/adapters/src/operation_journal.rs:738-779 | no journal call can spoil what was sent, and success is never forgotten |
| NamedVolumes.PresentNeedsProof | crates/adapters/src/named_volumes.rs:40-76 | an observation reports data present exactly when the volume is owned and a creation step succeeded |
| NamedVolumes.LostOnlyIfKnown | crates/adapters/src/named_volumes.rs:58-74 | data is declared lost exactly if it was known to exist and the volume is surely gone; doubt never becomes loss |
| CreateRun.Coordinator.RunLocked | crates/application/src/create_operation.rs:167-254 | the creation succeeds with revision one applied exactly when storage and all stages work, its stages numbered right after the storage steps; a failing stage is the last one started, its step failed or unknown as the row says, and all before it succeeded; storage is marked exactly when the container was started |
| CreateRun.Coordinator.RunStage | crates/application/src/create_operation.rs:256-329 | a stage's step is recorded before its effect and closed as succeeded, failed or unknown exactly as the work went |
| CreateRun.Coordinator.RunPrepared | crates/application/src/create_operation.rs:179-254 | once storage is there, the stages run in order up to the first that does not work, whose step says how |
| CreateRun.Coordinator.PrepareStorage | crates/adapters/src/create_stages.rs:164-239 | succeeds exactly when all directories and volumes can be made; then all storage is present, each volume proved by its own step, and the next number follows one step for the directories and one for each volume |
| CreateRun.Coordinator.EnsureVolume | crates/adapters/src/create_stages.rs:231-236 | one volume through its driver: the number after it is right because a success added exactly one closed step |
| CreateRun.Coordinator.EnsureVolumes | crates/adapters/src/create_stages.rs:225-237 | the loop succeeds exactly when every volume works, each under the next number |
| CreateRun.MarkAccepted | crates/adapters/src/create_state.rs:245-302 | the initialization guard accepts after the first five stages |
| CreateRun.ReadyAccepted | crates/adapters/src/create_state.rs:304-403 | the completion guard accepts after all seven stages |
| DeleteRun.RunLocked | crates/application/src/delete_operation.rs:104-165 | each refusal under its exact condition; a pending deletion is carried out; a completed one is answered again without effects |
| DeleteRun.CarryOut | crates/application/src/delete_operation.rs:130-165 | the three effects in order up to the first that fails, with its status recorded; retirement exactly when all worked and the checks cover the storage |
| DeleteRun.RunRemoval | crates/adapters/src/docker_delete.rs:170-228 | each change of a removal is recorded in the store before its outcome, up to the one that was not seen to work |
| DeleteRun.WorkedSteps | crates/adapters/src/docker_delete.rs:170-228 | the rows written by the coordinator are the one succeeded step per change that the removal promises |
| DeleteRun.RetiresIffChecked | crates/adapters/src/delete_state.rs:88-164 | after a removal only the storage checks decide whether the store retires the instance |
| DeleteRun.SuccessMeansRetired | crates/application/src/delete_operation.rs:130-165 | success is answered exactly when everything worked, and means a retired instance with ports released, data kept and one step per change |
| DeleteRun.FailureKeepsAll | crates/application/src/delete_operation.rs:140-157 | without success only the journal row of the deletion differs, and it stays unresolved |
| DeleteRun.StoredIsNotAcceptedAgain | crates/adapters/src/operation_journal.rs:334-349 | repeating a stored deletion accepts nothing anew |
| DeleteRun.PendingIsCertain | crates/adapters/src/delete_state.rs:37-61 | a deletion goes on only while no earlier step is open or in doubt, and only for the instance it is retiring |
| DeleteRun.DoubtStopsDeletion | crates/adapters/src/delete_state.rs:46-60 | with a step in doubt a deletion is refused before any effect |
| DeleteRun.AnswerMatchesStatus | crates/application/src/delete_operation.rs:146-161 | what the caller is told is what the row says: refused as failed, in doubt as unknown |
| DeleteRun.EffectsInOrder | crates/application/src/delete_operation.rs:139-145 | an effect is asked for only after all effects before it worked |
| PortRecovery.Recovery.Recover | crates/adapters/src/port_recovery.rs:66-100 | a recovery held, refused or rejected early leaves the store alone; every other one relates to the old rows exactly as decided |
| PortRecovery.Recovery.RecoverLocked | crates/adapters/src/port_recovery.rs:102-342 | holds, rejects, suggests, confirms other ports or carries on, each exactly under its condition |
| PortRecovery.Recovery.FindMatching | crates/adapters/src/port_recovery.rs:177-199 | the least confirmed revision the container matches, or none |
| PortRecovery.Recovery.Decide | crates/adapters/src/port_recovery.rs:120-215 | the branches compute the verdict: hold without conclusive evidence, otherwise restore or not, complete or not; `ActsOnlyOnConclusiveEvidence` and `ReconcileOnlyWhatIsThere` say what follows |
| PortRecovery.Recovery.InspectMoved | crates/adapters/src/port_recovery.rs:275-290 | the loop passes exactly the choices whose moved ports are free and unreserved |
| PortRecovery.Recovery.ConfirmOther | crates/adapters/src/port_recovery.rs:271-300 | without a look at the ports nothing changes; another choice is confirmed only after that look, is refused exactly when the transaction refuses it, and what was confirmed can always be read again |
| PortRecovery.Recovery.Offer | crates/adapters/src/port_recovery.rs:225-261 | suggestions change only the status, and only when some port conflicts |
| PortRecovery.Recovery.CloseDoubts | crates/adapters/src/port_recovery.rs:307-313 | the loop settles exactly the open steps, as unknown |
| PortRecovery.Recovery.RunEffect | crates/adapters/src/port_recovery.rs:369-399 | a step is recorded before its effect and closed as succeeded if all went well and as unknown otherwise; the running number stays the next one |
| PortRecovery.Recovery.Act | crates/adapters/src/port_recovery.rs:403-556 | commands go out in the planned order up to the first trouble; success means the wanted container was seen last and storage was marked before a start |
| PortRecovery.Recovery.Carry | crates/adapters/src/port_recovery.rs:307-342 | ends completed with the wanted bindings in effect and exactly reserved, or undecided with everything kept; every command has left its own true step; the store never refuses a settleable change |
| PortRecoverySpec.ReadFailsOnReceiptOnly | crates/adapters/src/create_state.rs:45-157 | only the receipt decides whether a confirmation can be read; no column and no reservation can refuse an undecided change |
| PortRecoverySpec.ChangeReserved | crates/adapters/src/create_state.rs:138-157 | the candidate ports of every undecided change are reserved, committed or held |
| PortRecoverySpec.CreationReserved | crates/adapters/src/create_state.rs:138-157 | a creation whose ports were never changed has as many committed reservations as ports, one for each |
| PortRecoverySpec.SettlementAccepted | crates/adapters/src/port_edit_state.rs:238-293 | once the wanted container was seen last, nothing in the store refuses to settle the change |
| PortRecoverySpec.DoubtedIsClosed | crates/adapters/src/port_recovery.rs:307-313 | after closing doubts no step is open and the numbering is as before |
| PortRecoverySpec.PassedOn | crates/adapters/src/port_recovery.rs:403-556 | parts of a plan passed one after the other are the whole plan passed in order |
| PortRecoveryProofs.ChangesOnlyWhatWasVerified | crates/adapters/src/port_recovery.rs:200-215 | a container is replaced or started only when asked for, only if stopped or gone and of a confirmed configuration |
| PortRecoveryProofs.ActsOnlyOnConclusiveEvidence | crates/adapters/src/port_recovery.rs:171-199 | nothing is asked for, changed or settled while another recorded container may be there, or one of a configuration never confirmed |
| PortRecoveryProofs.ReconcileOnlyWhatIsThere | crates/adapters/src/port_recovery.rs:200-215 | without a command to change anything only what is already wanted, and in its wanted state, is settled |
| PortRecoveryProofs.CompletedWasSeen | crates/adapters/src/port_recovery.rs:403-556 | what is settled was looked at last, and nothing on the way went wrong |
| PortRecoveryProofs.EveryCommandIsRecorded | crates/adapters/src/port_recovery.rs:307-399 | every command of a recovery leaves its own true step in a new attempt, and old open steps become unknown |
| PortRecoveryProofs.NothingIsGivenUp | crates/adapters/src/port_recovery.rs:59-60 | unless it completes, a recovery keeps every reservation, saved revision and the revision in effect |
| PortRecoveryProofs.NoEditIsStuck | crates/adapters/src/port_recovery.rs:41-46 | with a cooperating engine a retry brings the candidate into effect and a restore the old bindings, each exactly reserved |
| Encodings.RowsDecode | crates/adapters/src/port_edit_state.rs:67-78 | a port map without zero bytes can be read back from its encoding |
| Encodings.SameBytesSamePorts | crates/adapters/src/port_edit_state.rs:267-269 | equal encodings mean equal port maps |
| Encodings.UniqueIffNoZero | crates/adapters/src/port_edit_state.rs:67-78 | an entry is the only one with its encoding exactly when its texts hold no zero byte |
| Encodings.FieldsDecode | crates/adapters/src/external_recovery_state.rs:29-43 | length-prefixed fields can be read back |
| Encodings.SameBytesSameRequest | crates/adapters/src/external_recovery_state.rs:29-43 | equal encodings mean equal recovery requests |

## Left out

- The desktop application, view types, messages and navigation.
- SQL text, entity mappings and the database worker thread; column CHECK constraints on port ranges and the signed 64-bit limits of counters.
- Display names, project names, template snapshots and files, image resolutions and runtime observations: they take part in no guard proved here.
- The template, target and image rows and the storage method of a specification read by `confirmed_create`, and the lifecycle `snapshot`; creation and deletion do not model their own use of `confirmed_create`, port recovery does.
- The checks of storage, image, artifact rows and engine binding with which a port recovery begins: a failure there ends it with nothing changed.
- Clone planning: a clone enters only through the commit transaction, whose source guard is modelled.
- Process supervision, timeouts and sockets of the Docker CLI, inspect parsing, image pulls, Compose generation and readiness polling: their results are parameters.
- Links, permissions, empty directories and files edited while an artifact is being published; two programs publishing the same artifact at once.
- Reads that only project rows for display, except the derived committed revision.
- The order in which two host processes interleave outside log sessions: the runner excludes it per instance.
- LedgerObject.Ledger.SetStatus: takes only statuses that stay unresolved, because no caller sets a terminal one; the pure journal call also covers success.
- LedgerObject.Ledger.Accept: is called for start, stop, restart and delete only, as the program does, although the transaction itself would take other kinds.
- LedgerObject.Ledger.CompleteLifecycle: asks that no step is open, as every caller has made sure, although the transaction itself would complete without it.
- LedgerObject.Ledger.ConfirmPortRecovery: asks for the look at moved ports that its only caller takes, although the transaction itself would confirm without it.
- CreateRun.Coordinator.RunLocked: does not model a crash between two actions of one volume; `NamedVolumes` does.
