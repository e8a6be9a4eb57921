/** Port changes of one instance: the transactions that propose, re-confirm and settle new bindings. */
module PortEdits {
  import opened Wrappers
  import opened LedgerTypes
  import Journal

  // Proposed ports ----------------------------------------------------------------------

  type Proposal = seq<(string, Port)>

  function ToMap(proposed: Proposal): Bindings {
    if proposed == [] then map[]
    else
      var last := proposed[|proposed| - 1];
      ToMap(proposed[..|proposed| - 1])[last.0 := last.1]
  }

  /** A proposal names every slot once, keeps addresses and container ports, and moves some host port. */
  ghost predicate Acceptable(before: Bindings, proposed: Proposal) {
    && (forall i | 0 <= i < |proposed| ::
          && proposed[i].0 in before && proposed[i].1.at.ip == before[proposed[i].0].at.ip
          && proposed[i].1.container == before[proposed[i].0].container && proposed[i].1.at.host >= 1024)
    && (forall i, j | 0 <= i < j < |proposed| ::
          proposed[i].0 != proposed[j].0 && proposed[i].1.at != proposed[j].1.at)
    && (forall slot | slot in before :: exists i :: 0 <= i < |proposed| && proposed[i].0 == slot)
    && exists i :: 0 <= i < |proposed| && proposed[i].1.at.host != before[proposed[i].0].at.host
  }

  lemma {:induction false} ToMapIs(proposed: Proposal)
    requires forall i, j | 0 <= i < j < |proposed| :: proposed[i].0 != proposed[j].0
    ensures forall slot :: slot in ToMap(proposed) <==> exists i :: 0 <= i < |proposed| && proposed[i].0 == slot
    ensures forall i | 0 <= i < |proposed| ::
      proposed[i].0 in ToMap(proposed) && ToMap(proposed)[proposed[i].0] == proposed[i].1
  {
    if proposed != [] {
      var rest := proposed[..|proposed| - 1];
      ToMapIs(rest);
      forall slot
        ensures slot in ToMap(proposed) <==> exists i :: 0 <= i < |proposed| && proposed[i].0 == slot
      {
        if i :| 0 <= i < |rest| && rest[i].0 == slot { assert proposed[i].0 == slot; }
        if i :| 0 <= i < |proposed| && proposed[i].0 == slot {
          assert i < |rest| ==> rest[i].0 == slot;
          assert i == |rest| ==> proposed[|proposed| - 1].0 == slot;
        }
        assert proposed[|proposed| - 1].0 in ToMap(proposed);
      }
    }
  }

  /** The bindings after an acceptable proposal: same slots, addresses and container ports. */
  ghost predicate Moves(before: Bindings, after: Bindings) {
    && after.Keys == before.Keys
    && (forall slot | slot in after ::
          && after[slot].at.ip == before[slot].at.ip && after[slot].container == before[slot].container
          && after[slot].at.host >= 1024)
    && (forall s, t | s in after && t in after && s != t :: after[s].at != after[t].at)
    && exists slot :: slot in after && after[slot].at.host != before[slot].at.host
  }

  /** A proposal names each slot once, so each slot's port is the one proposed for it. */
  lemma ProposedFor(before: Bindings, proposed: Proposal, slot: string) returns (i: nat)
    requires Acceptable(before, proposed) && slot in before
    ensures i < |proposed| && proposed[i].0 == slot && slot in ToMap(proposed) && ToMap(proposed)[slot] == proposed[i].1
  {
    ToMapIs(proposed);
    i :| 0 <= i < |proposed| && proposed[i].0 == slot;
  }

  lemma ProposedSlots(before: Bindings, proposed: Proposal)
    requires Acceptable(before, proposed)
    ensures ToMap(proposed).Keys == before.Keys
  {
    ToMapIs(proposed);
    forall slot ensures slot in ToMap(proposed) <==> slot in before {
      if slot in ToMap(proposed) {
        var i :| 0 <= i < |proposed| && proposed[i].0 == slot;
      }
    }
  }

  lemma ProposedApart(before: Bindings, proposed: Proposal, i: nat, j: nat)
    requires Acceptable(before, proposed) && i < |proposed| && j < |proposed| && proposed[i].0 != proposed[j].0
    ensures proposed[i].1.at != proposed[j].1.at
  {
    assert i < j || j < i;
  }

  lemma ProposedKeeps(before: Bindings, proposed: Proposal, i: nat)
    requires Acceptable(before, proposed) && i < |proposed|
    ensures proposed[i].0 in before && proposed[i].1.at.ip == before[proposed[i].0].at.ip
    ensures proposed[i].1.container == before[proposed[i].0].container && proposed[i].1.at.host >= 1024
  {
  }

  lemma ProposedMoves(before: Bindings, proposed: Proposal)
    requires Acceptable(before, proposed)
    ensures exists slot ::
      slot in before && slot in ToMap(proposed) && ToMap(proposed)[slot].at.host != before[slot].at.host
  {
    var k :| 0 <= k < |proposed| && proposed[k].1.at.host != before[proposed[k].0].at.host;
    ToMapIs(proposed);
    assert proposed[k].0 in before && ToMap(proposed)[proposed[k].0] == proposed[k].1;
  }

  lemma AcceptableMoves(before: Bindings, proposed: Proposal)
    requires Acceptable(before, proposed)
    ensures Moves(before, ToMap(proposed))
  {
    hide Acceptable, ToMap;
    var after := ToMap(proposed);
    ProposedSlots(before, proposed);
    forall slot | slot in after
      ensures after[slot].at.ip == before[slot].at.ip && after[slot].container == before[slot].container
        && after[slot].at.host >= 1024
    {
      var i := ProposedFor(before, proposed, slot);
      ProposedKeeps(before, proposed, i);
    }
    forall s, t | s in after && t in after && s != t ensures after[s].at != after[t].at {
      var i := ProposedFor(before, proposed, s);
      var j := ProposedFor(before, proposed, t);
      ProposedApart(before, proposed, i, j);
    }
    ProposedMoves(before, proposed);
  }

  // Reservations --------------------------------------------------------------------------

  ghost predicate Has(rs: Reservations, at: Endpoint, status: ReservationStatus) {
    exists id :: id in rs && rs[id] == Reservation(at, status)
  }

  ghost predicate HasActive(rs: Reservations, at: Endpoint) {
    exists id :: id in rs && rs[id].at == at && Active(rs[id])
  }

  function ActiveAt(rs: Reservations, at: Endpoint): set<ReservationId> {
    set id | id in rs && rs[id].at == at && Active(rs[id])
  }

  function CommittedAt(rs: Reservations, at: Endpoint): set<ReservationId> {
    set id | id in rs && rs[id].at == at && rs[id].status == Committed
  }

  predicate Occupies(ports: Bindings, at: Endpoint) {
    exists slot :: slot in ports && ports[slot].at == at
  }

  /** Slots whose host port differs. */
  function Changed(before: Bindings, after: Bindings): set<string> {
    set slot | slot in after && !(slot in before && before[slot].at.host == after[slot].at.host)
  }

  function NewIds(slots: set<string>, revision: nat): set<ReservationId> {
    set slot | slot in slots :: Revised(slot, revision)
  }

  function Hold(rs: Reservations, after: Bindings, slots: set<string>, revision: nat): Reservations
    requires slots <= after.Keys
  {
    rs + map id | id in NewIds(slots, revision) :: Reservation(after[id.slot].at, Held)
  }

  /** An insert is refused when its key exists, or when its endpoint is reserved anywhere in the scope. */
  ghost predicate Refused(
    rs: Reservations, taken: set<Endpoint>, after: Bindings, slots: set<string>, revision: nat)
    requires slots <= after.Keys
  {
    exists slot :: slot in slots &&
      (Revised(slot, revision) in rs || after[slot].at in taken || HasActive(rs, after[slot].at))
  }

  // Beginning an edit -----------------------------------------------------------------------

  predicate Busy(c: Cell) {
    exists id :: id in c.ops && Unresolved(c.ops[id])
  }

  ghost function Latest(c: Cell): nat { Largest(c.specs.Keys) }

  /** Port rows of one revision; a revision without rows has no ports. */
  function Ports(c: Cell, revision: nat): Bindings {
    if revision in c.specs then c.specs[revision] else map[]
  }

  datatype EditRequest = EditRequest(expected: nat, base: nat, ports: Proposal)

  /** Rows written by an accepted edit. */
  ghost function Edited(c: Cell, op: string, request: EditRequest): Cell {
    var before, after, candidate := Ports(c, request.base), ToMap(request.ports), Latest(c) + 1;
    var slots := Changed(before, after);
    c.(
      specs := c.specs[candidate := after],
      ops := c.ops[op := Operation(EditPort, Accepted, "accepted", 1, request.expected,
                                   Some(request.base), Some(candidate), map[])],
      reservations := Hold(c.reservations, after, slots, candidate),
      pending := c.pending[op := Pending(request.base, candidate, PortsHash(after), NewIds(slots, candidate))])
  }

  ghost function BeginEdit(c: Cell, scope: string, taken: set<Endpoint>, op: string, request: EditRequest)
    : Result<Cell, Conflict>
  {
    var before, after, candidate := Ports(c, request.base), ToMap(request.ports), Latest(c) + 1;
    if c.scope != scope || c.lifecycle != Managed then Err(InvalidLifecycle)
    else if c.revision != request.expected then Err(StaleRevision)
    else if c.applied != Some(request.base) then Err(InvalidInput)
    else if Busy(c) then Err(UnresolvedOperation)
    else if !Acceptable(before, request.ports) then Err(InvalidInput)
    else if exists slot :: slot in before && |CommittedAt(c.reservations, before[slot].at)| != 1 then Err(InvalidInput)
    else if Refused(c.reservations, taken, after, Changed(before, after), candidate) then Err(Duplicate)
    else Ok(Edited(c, op, request))
  }

  // Confirming other ports for an undecided change ----------------------------------------------

  /** Slots whose endpoint this instance has not reserved. */
  ghost function Unreserved(rs: Reservations, after: Bindings): set<string> {
    set slot | slot in after && !HasActive(rs, after[slot].at)
  }

  ghost function BaseOf(c: Cell, op: string, candidate: nat): nat
    requires op in c.ops
  {
    if op in c.pending then c.pending[op].base else c.ops[op].oldSpec.GetOr(candidate)
  }

  ghost function Confirmed(c: Cell, op: string, candidate: nat, proposed: Proposal): Cell
    requires op in c.ops
  {
    var base, after := BaseOf(c, op, candidate), ToMap(proposed);
    var slots := Unreserved(c.reservations, after);
    var listed := if op in c.pending then c.pending[op].listed else {};
    c.(
      specs := c.specs[candidate + 1 := after],
      ops := c.ops[op := c.ops[op].(oldSpec := Some(base), newSpec := Some(candidate + 1),
                                    status := AwaitingDecision, phase := "confirmed_ports")],
      reservations := Hold(c.reservations, after, slots, candidate + 1),
      pending := c.pending[op := Pending(base, candidate + 1, PortsHash(after), listed + NewIds(slots, candidate + 1))])
  }

  ghost function ConfirmPorts(c: Cell, taken: set<Endpoint>, op: string, candidate: nat, proposed: Proposal)
    : Result<Cell, Conflict>
    requires op in c.ops
  {
    var o, after := c.ops[op], ToMap(proposed);
    if c.lifecycle != Managed || c.revision != o.expected then Err(Backend)
    else if !(Creates(o.kind) || o.kind == EditPort) || !Undecided(o.status) || o.newSpec != Some(candidate)
    then Err(InvalidInput)
    else if !Acceptable(Ports(c, candidate), proposed) then Err(InvalidInput)
    else if candidate + 1 in c.specs then Err(Duplicate)
    else if Refused(c.reservations, taken, after, Unreserved(c.reservations, after), candidate + 1) then Err(Duplicate)
    else Ok(Confirmed(c, op, candidate, proposed))
  }

  /**
   * The check made before confirming: a slot that moves away from the candidate must not go to a host
   * port already reserved on the loopback address, nor to one refused for another reason.
   */
  ghost predicate Inspected(c: Cell, refused: set<u16>, candidate: nat, proposed: Proposal) {
    forall i | 0 <= i < |proposed| ::
      var (slot, port) := proposed[i];
      (slot in Ports(c, candidate) && Ports(c, candidate)[slot].at.host == port.at.host)
      || (port.at.host !in refused && !HasActive(c.reservations, Endpoint(LOOPBACK, port.at.host)))
  }

  // Settling a change -------------------------------------------------------------------------------

  function Release(r: Reservation): Reservation { r.(status := Released) }

  /** Committed endpoints the old bindings give up. */
  predicate GivenUp(before: Bindings, after: Bindings, at: Endpoint) {
    exists slot :: slot in before && before[slot].at == at
      && !(slot in after && after[slot].at.host == before[slot].at.host)
  }

  function ReleaseMoved(rs: Reservations, before: Bindings, after: Bindings): Reservations {
    map id | id in rs ::
      if rs[id].status == Committed && GivenUp(before, after, rs[id].at) then Release(rs[id]) else rs[id]
  }

  function CommitListed(rs: Reservations, listed: set<ReservationId>): Reservations {
    map id | id in rs ::
      if id in listed && rs[id].status == Held then rs[id].(status := Committed) else rs[id]
  }

  function ReleaseUnbound(rs: Reservations, after: Bindings): Reservations {
    map id | id in rs :: if Active(rs[id]) && !Occupies(after, rs[id].at) then Release(rs[id]) else rs[id]
  }

  function Settled(rs: Reservations, listed: set<ReservationId>, before: Bindings, after: Bindings): Reservations {
    ReleaseUnbound(CommitListed(ReleaseMoved(rs, before, after), listed), after)
  }

  function MarkReady(storage: map<string, Allocation>): map<string, Allocation> {
    map slot | slot in storage :: storage[slot].(initialization := ReadyObserved)
  }

  predicate MayBeReady(storage: map<string, Allocation>) {
    forall slot | slot in storage ::
      storage[slot].presence == Present && storage[slot].initialization == MayHaveInitialized
  }

  /** The last step must be the one that saw exactly this container. */
  ghost predicate Saw(o: Operation, container: string, expected: Expected) {
    && o.steps != map[]
    && o.steps[Journal.Last(o.steps)] == Step(o.attempt, Observe, container, expected, Some(StepSucceeded))
  }

  /** Revision whose bindings take effect. */
  function Target(p: Pending, restore: bool): nat { if restore then p.base else p.candidate }

  ghost function Finished(c: Cell, op: string, restore: bool): Cell
    requires op in c.ops && op in c.pending
  {
    var o, p := c.ops[op], c.pending[op];
    var ready, target := o.kind != EditPort, Target(p, restore);
    c.(
      revision := c.revision + 1,
      applied := Some(target),
      reservations := Settled(c.reservations, p.listed, Ports(c, p.base), Ports(c, target)),
      storage := if ready then MarkReady(c.storage) else c.storage,
      ops := c.ops[op := o.(status := if restore then Abandoned else Succeeded,
                            phase := if ready then "ready" else "stopped")])
  }

  /** The state of the instance in which a change may be settled. */
  predicate Settleable(c: Cell, op: string, restore: bool)
    requires op in c.ops && op in c.pending
  {
    var o, p := c.ops[op], c.pending[op];
    && o.status in {Executing, OutcomeUnknown, Failed, AwaitingDecision}
    && restore == (o.phase == "restore") && c.lifecycle == Managed
    && (o.kind == EditPort ==> c.applied == Some(p.base))
    && (o.kind != EditPort ==> !restore && c.applied.None?)
  }

  predicate EachReservedOnce(rs: Reservations, ports: Bindings) {
    forall slot | slot in ports :: |ActiveAt(rs, ports[slot].at)| == 1
  }

  ghost function FinishChange(c: Cell, op: string, container: string, restore: bool, published: bool)
    : Result<Cell, Conflict>
  {
    if !Hex64(container) then Err(InvalidInput)
    else if !(op in c.pending && op in c.ops && (c.ops[op].kind == EditPort || Creates(c.ops[op].kind))
              && c.revision == c.ops[op].expected)
    then Err(Backend)
    else
      var o, p := c.ops[op], c.pending[op];
      var ready, target := o.kind != EditPort, Target(p, restore);
      if !Settleable(c, op, restore) then Err(InvalidInput)
      else if !Saw(o, container, if ready then ContainerRunning else ContainerStopped) then Err(InvalidInput)
      else if !published then Err(InvalidInput)
      else if !restore && PortsHash(Ports(c, target)) != p.hash then Err(InvalidInput)
      else if !EachReservedOnce(c.reservations, Ports(c, target)) then Err(InvalidInput)
      else if ready && !MayBeReady(c.storage) then Err(InvalidInput)
      else Ok(Finished(c, op, restore))
  }
}
