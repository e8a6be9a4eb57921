/** Every transaction of one instance keeps the invariant; storage knowledge only grows. */
module InstanceProofs {
  import opened Wrappers
  import opened LedgerTypes
  import opened PortEdits
  import opened CellInvariant
  import opened PortEditProofs
  import opened InstanceSteps
  import Journal

  // Creating ------------------------------------------------------------------------------------

  lemma {:induction false} AllocationsAreNew(how: Method, storage: seq<StorageRequest>)
    ensures forall slot | slot in Allocations(how, storage) ::
      Allocations(how, storage)[slot].initialization == NotAttempted
  {
    if storage != [] { AllocationsAreNew(how, storage[..|storage| - 1]); }
  }

  predicate Asked(storage: seq<StorageRequest>, slot: string, identity: string) {
    exists i :: 0 <= i < |storage| && storage[i].slot == slot && storage[i].identity == identity
  }

  lemma {:induction false} AllocationsAreAsked(how: Method, storage: seq<StorageRequest>)
    ensures forall slot | slot in Allocations(how, storage) :: Asked(storage, slot, Allocations(how, storage)[slot].identity)
  {
    if storage != [] {
      var rest, last := storage[..|storage| - 1], storage[|storage| - 1];
      AllocationsAreAsked(how, rest);
      forall slot | slot in Allocations(how, storage)
        ensures Asked(storage, slot, Allocations(how, storage)[slot].identity)
      {
        if slot == last.slot {
          assert storage[|storage| - 1].slot == slot;
        } else {
          assert Asked(rest, slot, Allocations(how, rest)[slot].identity);
          AskedMore(rest, last, slot, Allocations(how, rest)[slot].identity);
          assert rest + [last] == storage;
        }
      }
    }
  }

  lemma AskedMore(rest: seq<StorageRequest>, last: StorageRequest, slot: string, identity: string)
    requires Asked(rest, slot, identity)
    ensures Asked(rest + [last], slot, identity)
  {
    var i :| 0 <= i < |rest| && rest[i].slot == slot && rest[i].identity == identity;
    assert (rest + [last])[i] == rest[i];
  }

  lemma AllocationsAreDistinct(how: Method, storage: seq<StorageRequest>, used: set<string>)
    requires StorageInsertable(storage, used)
    ensures DistinctResources(Allocations(how, storage))
    ensures forall slot | slot in Allocations(how, storage) :: Allocations(how, storage)[slot].identity !in used
  {
    var rows := Allocations(how, storage);
    AllocationsAreAsked(how, storage);
    forall s, t | s in rows && t in rows && s != t ensures rows[s].identity != rows[t].identity {
      assert Asked(storage, s, rows[s].identity) && Asked(storage, t, rows[t].identity);
      var i :| 0 <= i < |storage| && storage[i].slot == s && storage[i].identity == rows[s].identity;
      var j :| 0 <= j < |storage| && storage[j].slot == t && storage[j].identity == rows[t].identity;
      assert i != j;
    }
  }

  lemma FirstPortsShaped(record: InstanceRecord, taken: set<Endpoint>)
    requires PortsInsertable(record.ports, taken)
    requires forall i | 0 <= i < |record.ports| :: record.ports[i].1.at.ip == LOOPBACK
    ensures Shaped(ToMap(record.ports), ToMap(record.ports).Keys)
    ensures forall slot | slot in ToMap(record.ports) :: ToMap(record.ports)[slot].at !in taken
  {
    var ports := ToMap(record.ports);
    ToMapIs(record.ports);
    forall s, t | s in ports && t in ports && s != t ensures ports[s].at != ports[t].at {
      var i :| 0 <= i < |record.ports| && record.ports[i].0 == s;
      var j :| 0 <= j < |record.ports| && record.ports[j].0 == t;
      assert ports[s] == record.ports[i].1 && ports[t] == record.ports[j].1;
    }
    forall s | s in ports ensures ports[s].at.ip == LOOPBACK && ports[s].at !in taken {
      var i :| 0 <= i < |record.ports| && record.ports[i].0 == s;
      assert ports[s] == record.ports[i].1;
    }
  }

  lemma FirstReservationsBound(ports: Bindings)
    requires Distinct(ports)
    ensures ExactlyBound(FirstReservations(ports), ports) && CommittedFor(FirstReservations(ports), ports)
  {
    var rs := FirstReservations(ports);
    forall slot | slot in ports ensures Has(rs, ports[slot].at, Committed) {
      assert Initial(slot) in InitialIds(ports);
      assert rs[Initial(slot)] == Reservation(ports[slot].at, Committed);
    }
    forall id | id in rs ensures Occupies(ports, rs[id].at) {
      assert id.slot in ports;
    }
    BoundFromCommitted(rs, ports);
  }

  lemma NewCellKeeps(
    record: InstanceRecord, taken: set<Endpoint>, used: set<string>, op: string, kind: Kind, phase: string)
    requires Insertable(record, taken, used) && Creates(kind)
    requires forall i | 0 <= i < |record.ports| :: record.ports[i].1.at.ip == LOOPBACK
    ensures CellOk(NewCell(record, op, kind, phase))
    ensures ExactlyBound(NewCell(record, op, kind, phase).reservations, ToMap(record.ports))
  {
    hide PortsInsertable, StorageInsertable, ToMap, FirstReservations, ExactlyBound, SpecsOk, ReservationsOk, OpsOk, CommittedIsBase, Shaped;
    var c, ports := NewCell(record, op, kind, phase), ToMap(record.ports);
    FirstPortsShaped(record, taken);
    NewReservationsOk(c, ports);
    assert SpecsOk(c) && ReservationsOk(c);
    AllocationsAreNew(record.how, record.storage);
    AllocationsAreDistinct(record.how, record.storage, used);
    NewOperationSound(c.ops[op]);
    assert OpsOk(c) && CommittedIsBase(c) by { NewOpsOk(c, op); }
  }

  lemma NewReservationsOk(c: Cell, ports: Bindings)
    requires Shaped(ports, ports.Keys) && c.specs == map[1 := ports] && c.applied.None? && c.lifecycle == Managed
    requires c.reservations == FirstReservations(ports)
    ensures SpecsOk(c) && ReservationsOk(c) && ExactlyBound(c.reservations, ports)
  {
    hide ExactlyBound, CommittedFor, OnePerEndpoint, Distinct;
    assert Distinct(ports) && c.specs[1] == ports;
    FirstReservationsBound(ports);
    BoundIsOnePer(c.reservations, ports);
    FirstIdsInitial(ports);
  }

  lemma FirstIdsInitial(ports: Bindings)
    ensures forall id | id in FirstReservations(ports) :: id.Initial?
  {
  }

  lemma NewOpsOk(c: Cell, op: string)
    requires op in c.ops && c.ops == map[op := c.ops[op]] && Journal.Sound(c.ops[op]) && c.pending == map[]
    requires c.ops[op] == Operation(c.ops[op].kind, Accepted, c.ops[op].phase, 1, 1, None, Some(1), map[])
    requires Creates(c.ops[op].kind) && c.lifecycle == Managed && c.revision == 1 && c.applied.None?
    requires c.specs.Keys == {1}
    ensures OpsOk(c) && CommittedIsBase(c)
  {
    hide Journal.Sound;
  }

  // Accepting -----------------------------------------------------------------------------------

  lemma AdmitKeeps(c: Cell, intent: Intent)
    requires CellOk(c) && !Busy(c) && intent.id !in c.ops && c.lifecycle == Managed && c.revision == intent.expected
    requires intent.kind in {Start, Stop, Restart, Recover, Delete} && intent.newSpec.None?
    ensures CellOk(Admitted(c, intent))
  {
    hide SpecsOk, ReservationsOk, OpsOk, CommittedIsBase, AppliedIsCreated, Journal.Sound;
    var d := Admitted(c, intent);
    CreationStays(c, d);
    NewOperationSound(d.ops[intent.id]);
    OpsAreSound(c);
    SameHeader(c, d);
    AddedOpsOk(c, d, intent.id);
    AddedCommitted(c, d, intent.id);
  }

  // Storage -------------------------------------------------------------------------------------

  /** No allocation disappears, changes its resource, or is known to be less initialized than before. */
  ghost predicate StorageGrows(before: map<string, Allocation>, after: map<string, Allocation>) {
    forall slot | slot in before ::
      && slot in after && after[slot].how == before[slot].how && after[slot].identity == before[slot].identity
      && Rank(before[slot].initialization) <= Rank(after[slot].initialization)
  }

  lemma StorageKeeps(c: Cell, storage: map<string, Allocation>)
    requires CellOk(c)
    requires forall slot | slot in storage && storage[slot].initialization == ReadyObserved :: c.applied.Some?
    requires DistinctResources(storage)
    ensures CellOk(c.(storage := storage))
  {
    hide SpecsOk, ReservationsOk, OpsOk, CommittedIsBase;
    var d := c.(storage := storage);
    SameHeader(c, d);
    CreationStays(c, d);
    assert OpsOk(d) by { SameOps(c, d); }
    assert CommittedIsBase(d) by { SameCommittedRows(c, d); }
  }

  lemma SameOps(c: Cell, d: Cell)
    requires OpsOk(c) && d == c.(storage := d.storage)
    ensures OpsOk(d)
  {
    hide Journal.Sound, MovesHeld;
    forall id | id in d.ops && Unresolved(d.ops[id]) ensures UnresolvedOk(d, id) {
      assert UnresolvedOk(c, id);
    }
  }

  lemma SameCommittedRows(c: Cell, d: Cell)
    requires CommittedIsBase(c) && d.ops == c.ops && d.applied == c.applied
    ensures CommittedIsBase(d)
  {
  }

  lemma SetPresenceKeeps(c: Cell, slot: string, presence: Presence)
    requires CellOk(c) && SetPresence(c, slot, presence).Ok?
    ensures CellOk(SetPresence(c, slot, presence).value)
    ensures StorageGrows(c.storage, SetPresence(c, slot, presence).value.storage)
  {
    hide SpecsOk, ReservationsOk, OpsOk, CommittedIsBase;
    StorageKeeps(c, SetPresence(c, slot, presence).value.storage);
  }

  lemma RecordBindKeeps(c: Cell, op: string, slot: string, identity: string, evidence: string)
    requires CellOk(c) && RecordBind(c, op, slot, identity, evidence).Ok?
    ensures CellOk(RecordBind(c, op, slot, identity, evidence).value)
    ensures StorageGrows(c.storage, RecordBind(c, op, slot, identity, evidence).value.storage)
  {
    hide SpecsOk, ReservationsOk, OpsOk, CommittedIsBase;
    StorageKeeps(c, RecordBind(c, op, slot, identity, evidence).value.storage);
  }

  lemma MarkKeeps(c: Cell, op: string)
    requires CellOk(c) && MarkMayHaveInitialized(c, op).Ok?
    ensures CellOk(MarkMayHaveInitialized(c, op).value)
    ensures StorageGrows(c.storage, MarkMayHaveInitialized(c, op).value.storage)
  {
    hide SpecsOk, ReservationsOk, OpsOk, CommittedIsBase, SawState, Precedes;
    StorageKeeps(c, Marked(c.storage));
  }

  /** The overwrite before a recovered start lowers nothing, because its creation is not completed. */
  lemma OverwriteKeeps(c: Cell, op: string)
    requires CellOk(c) && op in c.ops && Unresolved(c.ops[op]) && Creates(c.ops[op].kind)
    ensures CellOk(c.(storage := Overwritten(c.storage)))
    ensures StorageGrows(c.storage, Overwritten(c.storage))
  {
    hide SpecsOk, ReservationsOk, OpsOk, CommittedIsBase;
    UnresolvedIsOk(c, op);
    StorageKeeps(c, Overwritten(c.storage));
  }

  /** Exactly when the overwrite would lower an allocation. */
  lemma OverwriteLowersIffReady(storage: map<string, Allocation>)
    ensures !StorageGrows(storage, Overwritten(storage)) <==>
      exists slot :: slot in storage && storage[slot].presence == Present
        && storage[slot].initialization == ReadyObserved
  {
    if slot :| slot in storage && storage[slot].presence == Present && storage[slot].initialization == ReadyObserved {
      assert Rank(Overwritten(storage)[slot].initialization) < Rank(storage[slot].initialization);
    }
  }

  // Completing ----------------------------------------------------------------------------------

  lemma CompleteReadyFacts(c: Cell, op: string, container: string)
    requires CellOk(c) && CompleteReady(c, op, container).Ok?
    ensures op in c.ops && Unresolved(c.ops[op]) && c.applied.None? && op !in c.pending
    ensures c.lifecycle == Managed && c.ops[op].newSpec == Some(1) && !Journal.AnyOpen(c.ops[op].steps)
    ensures Creates(c.ops[op].kind)
  {
    hide SpecsOk, ReservationsOk, CommittedIsBase, Precedes, MovesHeld;
    Journal.LastIsCount(c.ops[op].steps);
    Journal.LastClosedMeansAllClosed(c.ops[op]);
    assert UnresolvedOk(c, op);
  }

  lemma CompleteReadyKeeps(c: Cell, op: string, container: string)
    requires CellOk(c) && CompleteReady(c, op, container).Ok?
    ensures var d := CompleteReady(c, op, container).value;
      CellOk(d) && StorageGrows(c.storage, d.storage) && d.ops[op].status == Succeeded && d.applied == Some(1)
  {
    hide SpecsOk, ReservationsOk, OpsOk, Precedes, SawState, Journal.Sound, UnresolvedOk;
    CompleteReadyFacts(c, op, container);
    var d := CompleteReady(c, op, container).value;
    OpsAreSound(c);
    SameSteps(c.ops[op], d.ops[op]);
    RewrittenOpsOk(c, d, op);
    assert CreationDone(d.ops[op]);
    assert SpecsOk(d) && ReservationsOk(d) by { FirstApplied(c, d); }
  }

  lemma FirstApplied(c: Cell, d: Cell)
    requires SpecsOk(c) && ReservationsOk(c) && c.applied.None? && d.applied == Some(1)
    requires d.specs == c.specs && d.reservations == c.reservations && d.lifecycle == c.lifecycle
    ensures SpecsOk(d) && ReservationsOk(d)
  {
    hide CommittedFor, OnePerEndpoint, Shaped;
  }

  lemma CompleteLifecycleKeeps(c: Cell, op: string, container: string, runtime: Runtime, observed: bool)
    requires CellOk(c) && CompleteLifecycle(c, op, container, runtime, observed).Ok?
    requires !Journal.AnyOpen(c.ops[op].steps)
    ensures CellOk(CompleteLifecycle(c, op, container, runtime, observed).value)
  {
    hide SpecsOk, ReservationsOk, OpsOk, CommittedIsBase, Journal.Sound, UnresolvedOk, Journal.AnyOpen;
    var d := CompleteLifecycle(c, op, container, runtime, observed).value;
    UnresolvedIsOk(c, op);
    assert c.ops[op].newSpec.None? by { NoCandidate(c, op); }
    OpsAreSound(c);
    SameSteps(c.ops[op], d.ops[op]);
    SameHeader(c, d);
    RewrittenOpsOk(c, d, op);
    SucceededWithoutSpec(c, d, op);
    CreationStays(c, d);
  }

  lemma NoCandidate(c: Cell, op: string)
    requires op in c.ops && UnresolvedOk(c, op) && !Creates(c.ops[op].kind) && c.ops[op].kind != EditPort
    ensures c.ops[op].newSpec.None? && op !in c.pending
  {
  }

  lemma SucceededWithoutSpec(c: Cell, d: Cell, op: string)
    requires CommittedIsBase(c) && op in c.ops && d.applied == c.applied
    requires op in d.ops && d.ops == c.ops[op := d.ops[op]] && c.ops[op].newSpec.None? && d.ops[op].newSpec.None?
    ensures CommittedIsBase(d)
  {
    if Base(c) != 1 {
      var o :| o in c.ops && c.ops[o].status == Succeeded && c.ops[o].newSpec == Some(Base(c));
      assert d.ops[o] == c.ops[o];
    }
  }

  /** A finished start, stop or restart has an open step exactly when its last step was open at the call. */
  lemma LifecycleClosesIffLastClosed(c: Cell, op: string, container: string, runtime: Runtime, observed: bool)
    requires CellOk(c) && CompleteLifecycle(c, op, container, runtime, observed).Ok?
    ensures var o, d := c.ops[op], CompleteLifecycle(c, op, container, runtime, observed).value;
      Journal.AnyOpen(d.ops[op].steps) <==>
        Journal.Last(o.steps) in o.steps && o.steps[Journal.Last(o.steps)].outcome.None?
  {
    hide SpecsOk, ReservationsOk, CommittedIsBase, UnresolvedOk;
    OpsAreSound(c);
    Journal.LastClosedMeansAllClosed(c.ops[op]);
  }

  lemma CompleteRecoveryKeeps(c: Cell, op: string, container: string, runtime: Runtime, published: bool)
    requires CellOk(c) && CompleteRecovery(c, op, container, runtime, published).Ok?
    ensures CellOk(CompleteRecovery(c, op, container, runtime, published).value)
  {
    hide SpecsOk, ReservationsOk, OpsOk, CommittedIsBase, Journal.Sound, UnresolvedOk;
    var d := CompleteRecovery(c, op, container, runtime, published).value;
    UnresolvedIsOk(c, op);
    NoCandidate(c, op);
    OpsAreSound(c);
    assert !Journal.AnyOpen(c.ops[op].steps) by { SawClosed(c.ops[op], container, StateObserved); }
    SameSteps(c.ops[op], d.ops[op]);
    SameHeader(c, d);
    RewrittenOpsOk(c, d, op);
    SucceededWithoutSpec(c, d, op);
    CreationStays(c, d);
  }

  lemma SawClosed(o: Operation, container: string, expected: Expected)
    requires Journal.Sound(o) && Saw(o, container, expected)
    ensures !Journal.AnyOpen(o.steps)
  {
    Journal.LastClosedMeansAllClosed(o);
  }

  // Deleting ------------------------------------------------------------------------------------

  lemma {:induction false} RetainIs(storage: map<string, Allocation>, checks: seq<StorageCheck>)
    ensures Retain(storage, checks).Keys == storage.Keys
    ensures forall slot | slot in storage ::
      Retain(storage, checks)[slot] == storage[slot].(
        ownership := Retain(storage, checks)[slot].ownership, presence := Retain(storage, checks)[slot].presence)
  {
    if checks != [] { RetainIs(storage, checks[..|checks| - 1]); }
  }

  /** The last check of a slot decides what is recorded for it. */
  lemma {:induction false} RetainSets(storage: map<string, Allocation>, checks: seq<StorageCheck>, i: nat)
    requires i < |checks| && checks[i].slot in storage
    requires forall j | i < j < |checks| :: checks[j].slot != checks[i].slot
    ensures var slot, kept := checks[i].slot, Retain(storage, checks);
      slot in kept && kept[slot].ownership == Retained && kept[slot].presence == checks[i].presence
  {
    var rest := checks[..|checks| - 1];
    RetainIs(storage, rest);
    if i < |rest| { RetainSets(storage, rest, i); }
  }

  lemma CheckedOnce(checks: seq<StorageCheck>, slot: string, i: nat, j: nat)
    requires i < |checks| && j < |checks| && checks[i].slot == slot == checks[j].slot
    requires |set k | 0 <= k < |checks| && checks[k].slot == slot| == 1
    ensures i == j
  {
    var found := set k | 0 <= k < |checks| && checks[k].slot == slot;
    assert i in found && j in found;
    assert |found - {i}| == 0;
    assert j !in found - {i};
  }

  /** Every allocation of a deleted instance is retained in the condition its one check found. */
  lemma DeleteRecordsChecks(storage: map<string, Allocation>, checks: seq<StorageCheck>, i: nat)
    requires ChecksAll(storage, checks) && i < |checks| && checks[i].slot in storage
    ensures var slot, kept := checks[i].slot, Retain(storage, checks);
      slot in kept && kept[slot].ownership == Retained && kept[slot].presence == checks[i].presence
  {
    forall j | i < j < |checks| ensures checks[j].slot != checks[i].slot {
      if checks[j].slot == checks[i].slot { CheckedOnce(checks, checks[i].slot, i, j); }
    }
    RetainSets(storage, checks, i);
  }

  /** Deletion ends two revisions after the confirmed one, keeps every allocation and frees every port. */
  lemma DeleteRetires(c: Cell, scope: string, op: string, checks: seq<StorageCheck>)
    requires CellOk(c) && CompleteDelete(c, scope, op, checks).Ok?
    ensures var d := Deleted(c, op, checks);
      && d.lifecycle == Retired && d.revision == c.ops[op].expected + 2
      && (forall id | id in d.reservations :: !Active(d.reservations[id]))
      && d.storage.Keys == c.storage.Keys
      && (forall slot | slot in c.storage ::
            d.storage[slot].identity == c.storage[slot].identity && d.storage[slot].evidence == c.storage[slot].evidence
            && d.storage[slot].how == c.storage[slot].how
            && d.storage[slot].initialization == c.storage[slot].initialization)
  {
    hide CellOk;
    RetainIs(c.storage, checks);
  }

  lemma DeleteKeeps(c: Cell, scope: string, op: string, checks: seq<StorageCheck>)
    requires CellOk(c) && CompleteDelete(c, scope, op, checks).Ok?
    ensures CellOk(Deleted(c, op, checks)) && StorageGrows(c.storage, Deleted(c, op, checks).storage)
  {
    hide SpecsOk, OpsOk, CommittedIsBase, Journal.Sound, UnresolvedOk, ChecksAll, Retain;
    var d := Deleted(c, op, checks);
    UnresolvedIsOk(c, op);
    NoCandidate(c, op);
    OpsAreSound(c);
    SameSteps(c.ops[op], d.ops[op]);
    RewrittenOpsOk(c, d, op);
    SucceededWithoutSpec(c, d, op);
    CreationStays(c, d);
    RetainIs(c.storage, checks);
    assert SpecsOk(d) by { SameSpecs(c, d); }
  }

  lemma SameSpecs(c: Cell, d: Cell)
    requires SpecsOk(c) && d.specs == c.specs && d.applied == c.applied
    ensures SpecsOk(d)
  {
  }

  // Renaming ------------------------------------------------------------------------------------

  lemma RenameKeeps(c: Cell, expected: nat)
    requires CellOk(c) && RenameInstance(c, expected).Ok?
    ensures CellOk(RenameInstance(c, expected).value)
  {
    hide SpecsOk, ReservationsOk, CommittedIsBase, Journal.Sound, UnresolvedOk;
    var d := RenameInstance(c, expected).value;
    SameHeader(c, d);
    CreationStays(c, d);
    SameCommittedRows(c, d);
  }

  // What an unresolved operation fixes --------------------------------------------------------------

  /** An instance is retiring exactly while a deletion of it is unresolved. */
  lemma RetiringIffDeleting(c: Cell)
    requires CellOk(c)
    ensures c.lifecycle == Retiring <==> exists id :: id in c.ops && Unresolved(c.ops[id]) && c.ops[id].kind == Delete
    ensures c.lifecycle == Retired ==> !Busy(c)
  {
    hide SpecsOk, ReservationsOk, CommittedIsBase, Journal.Sound;
    forall id | id in c.ops && Unresolved(c.ops[id])
      ensures c.lifecycle == (if c.ops[id].kind == Delete then Retiring else Managed)
    {
      assert UnresolvedOk(c, id);
    }
  }

  /** While an operation is unresolved the revision is the one it expects, so it cannot turn stale. */
  lemma NeverStale(c: Cell, op: string)
    requires CellOk(c) && op in c.ops && Unresolved(c.ops[op])
    ensures c.revision == c.ops[op].expected + (if c.ops[op].kind == Delete then 1 else 0)
  {
    UnresolvedIsOk(c, op);
  }
}
