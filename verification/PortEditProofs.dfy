/** Port changes keep the instance invariant, and settle to exactly the bindings that were confirmed. */
module PortEditProofs {
  import opened Wrappers
  import opened LedgerTypes
  import opened PortEdits
  import opened CellInvariant
  import Journal

  // Holding new endpoints --------------------------------------------------------------------

  lemma HoldIs(rs: Reservations, taken: set<Endpoint>, after: Bindings, slots: set<string>, revision: nat)
    requires slots <= after.Keys && !Refused(rs, taken, after, slots, revision)
    ensures var held := Hold(rs, after, slots, revision);
      && (forall id | id in rs :: id in held && held[id] == rs[id])
      && (forall slot | slot in slots :: Revised(slot, revision) in held
            && held[Revised(slot, revision)] == Reservation(after[slot].at, Held))
      && (forall id | id in held && id !in rs :: id.Revised? && id.revision == revision && id.slot in slots)
  {
    var held := Hold(rs, after, slots, revision);
    forall slot | slot in slots
      ensures Revised(slot, revision) in held
        && held[Revised(slot, revision)] == Reservation(after[slot].at, Held)
    {
      assert Revised(slot, revision) in NewIds(slots, revision);
    }
  }

  lemma HoldOnePerEndpoint(
    rs: Reservations, taken: set<Endpoint>, after: Bindings, slots: set<string>, revision: nat)
    requires slots <= after.Keys && !Refused(rs, taken, after, slots, revision)
    requires OnePerEndpoint(rs) && Distinct(after)
    ensures OnePerEndpoint(Hold(rs, after, slots, revision))
  {
    hide Hold;
    HoldIs(rs, taken, after, slots, revision);
    var held := Hold(rs, after, slots, revision);
    forall a, b | a in held && b in held && a != b && Active(held[a]) && Active(held[b])
      ensures held[a].at != held[b].at
    {
      if a in rs && b !in rs {
        assert !HasActive(rs, after[b.slot].at);
      } else if a !in rs && b in rs {
        assert !HasActive(rs, after[a.slot].at);
      }
    }
  }

  lemma HoldKeepsCommitted(
    rs: Reservations, taken: set<Endpoint>, after: Bindings, slots: set<string>, revision: nat, ports: Bindings)
    requires slots <= after.Keys && !Refused(rs, taken, after, slots, revision)
    requires CommittedFor(rs, ports)
    ensures CommittedFor(Hold(rs, after, slots, revision), ports)
  {
    hide Hold, Occupies;
    HoldIs(rs, taken, after, slots, revision);
    var held := Hold(rs, after, slots, revision);
    forall slot | slot in ports ensures Has(held, ports[slot].at, Committed) {
      var id :| id in rs && rs[id] == Reservation(ports[slot].at, Committed);
      assert held[id] == rs[id];
    }
  }

  lemma HoldReservationsOk(
    c: Cell, d: Cell, taken: set<Endpoint>, after: Bindings, slots: set<string>, revision: nat)
    requires ReservationsOk(c) && SpecsOk(c) && c.lifecycle == Managed == d.lifecycle
    requires slots <= after.Keys && !Refused(c.reservations, taken, after, slots, revision) && Distinct(after)
    requires revision !in c.specs && d.specs == c.specs[revision := after] && d.applied == c.applied
    requires d.reservations == Hold(c.reservations, after, slots, revision)
    ensures ReservationsOk(d)
  {
    hide Hold, CommittedFor, OnePerEndpoint, Distinct;
    HoldIs(c.reservations, taken, after, slots, revision);
    HoldOnePerEndpoint(c.reservations, taken, after, slots, revision);
    HoldKeepsCommitted(c.reservations, taken, after, slots, revision, c.specs[Base(c)]);
    assert d.specs[Base(d)] == c.specs[Base(c)];
  }

  lemma MovesShape(before: Bindings, after: Bindings, slots: set<string>)
    requires Shaped(before, slots) && Moves(before, after)
    ensures Shaped(after, slots) && Distinct(after)
  {
  }

  lemma NewSpecOk(c: Cell, d: Cell, candidate: nat, from: nat, after: Bindings)
    requires SpecsOk(c) && from in c.specs && Moves(c.specs[from], after)
    requires candidate !in c.specs && candidate > 0
    requires d.specs == c.specs[candidate := after] && d.applied == c.applied
    ensures SpecsOk(d) && Distinct(after)
  {
    hide Moves, Shaped;
    MovesShape(c.specs[from], after, c.specs[1].Keys);
  }

  lemma LatestIs(c: Cell)
    requires SpecsOk(c)
    ensures Latest(c) in c.specs && forall r | r in c.specs :: r <= Latest(c)
    ensures Latest(c) + 1 !in c.specs
  {
    LargestIs(c.specs.Keys);
    assert 1 in c.specs.Keys;
  }

  // Beginning an edit -------------------------------------------------------------------------

  lemma {:induction false} CommittedOnce(rs: Reservations, ports: Bindings)
    requires OnePerEndpoint(rs) && CommittedFor(rs, ports)
    ensures forall slot | slot in ports :: |CommittedAt(rs, ports[slot].at)| == 1
  {
    forall slot | slot in ports ensures |CommittedAt(rs, ports[slot].at)| == 1 {
      var id :| id in rs && rs[id] == Reservation(ports[slot].at, Committed);
      assert CommittedAt(rs, ports[slot].at) == {id};
    }
  }

  /** Begin's count of committed reservations can never be what refuses an edit. */
  lemma BeginNeverMiscounts(c: Cell, base: nat)
    requires CellOk(c) && c.lifecycle == Managed && c.applied == Some(base)
    ensures forall slot | slot in Ports(c, base) :: |CommittedAt(c.reservations, Ports(c, base)[slot].at)| == 1
  {
    CommittedOnce(c.reservations, c.specs[base]);
  }

  lemma HeldListed(
    rs: Reservations, taken: set<Endpoint>, before: Bindings, after: Bindings, slots: set<string>, revision: nat,
    listed: set<ReservationId>)
    requires slots <= after.Keys && !Refused(rs, taken, after, slots, revision)
    requires NewIds(slots, revision) <= listed && slots >= Changed(before, after)
    requires forall slot | slot in before && slot in after :: before[slot].at.ip == after[slot].at.ip
    ensures MovesHeld(Hold(rs, after, slots, revision), listed, before, after)
  {
    hide Hold;
    HoldIs(rs, taken, after, slots, revision);
    var held := Hold(rs, after, slots, revision);
    forall slot | slot in after
      ensures (slot in before && before[slot].at == after[slot].at)
        || exists id :: id in listed && id in held && held[id] == Reservation(after[slot].at, Held)
    {
      if slot in slots {
        assert Revised(slot, revision) in NewIds(slots, revision);
        assert held[Revised(slot, revision)] == Reservation(after[slot].at, Held);
      } else {
        assert slot !in Changed(before, after);
      }
    }
  }

  lemma NewOperationSound(op: Operation)
    requires op.steps == map[] && op.attempt == 1 && Unresolved(op)
    ensures Journal.Sound(op)
  {
  }

  /** The only operation that can be unresolved is the one just added. */
  lemma AddedOpsOk(c: Cell, d: Cell, op: string)
    requires OpsOk(c) && !Busy(c) && op !in c.ops
    requires op in d.ops && d.ops == c.ops[op := d.ops[op]] && Journal.Sound(d.ops[op])
    requires d.pending.Keys <= d.ops.Keys
    requires Unresolved(d.ops[op]) ==> UnresolvedOk(d, op)
    requires d.lifecycle == Retiring ==> Unresolved(d.ops[op]) && d.ops[op].kind == Delete
    ensures OpsOk(d)
  {
    hide UnresolvedOk, Journal.Sound;
    forall a | a in d.ops && Unresolved(d.ops[a]) ensures a == op {
      assert a != op ==> a in c.ops;
    }
  }

  lemma AddedCommitted(c: Cell, d: Cell, op: string)
    requires CommittedIsBase(c) && op !in c.ops && d.applied == c.applied
    requires op in d.ops && d.ops == c.ops[op := d.ops[op]] && Unresolved(d.ops[op])
    ensures CommittedIsBase(d)
  {
    if Base(c) != 1 {
      var o :| o in c.ops && c.ops[o].status == Succeeded && c.ops[o].newSpec == Some(Base(c));
      assert d.ops[o] == c.ops[o];
    }
  }

  lemma SameAddresses(before: Bindings, after: Bindings)
    requires Moves(before, after)
    ensures forall slot | slot in before && slot in after :: before[slot].at.ip == after[slot].at.ip
    ensures after.Keys == before.Keys
  {
  }

  lemma BeginPendingOk(c: Cell, scope: string, taken: set<Endpoint>, op: string, request: EditRequest)
    requires SpecsOk(c) && BeginEdit(c, scope, taken, op, request).Ok?
    ensures PendingOk(Edited(c, op, request), op)
    ensures UnresolvedOk(Edited(c, op, request), op)
  {
    hide MovesHeld, Hold, Refused, Acceptable, ToMap, Shaped, Moves, Latest, Busy, NewIds;
    LatestIs(c);
    AcceptableMoves(Ports(c, request.base), request.ports);
    var before, after, candidate := c.specs[request.base], ToMap(request.ports), Latest(c) + 1;
    SameAddresses(before, after);
    var slots := Changed(before, after);
    HeldListed(c.reservations, taken, before, after, slots, candidate, NewIds(slots, candidate));
  }

  lemma BeginOpsOk(c: Cell, scope: string, taken: set<Endpoint>, op: string, request: EditRequest)
    requires CellOk(c) && op !in c.ops && BeginEdit(c, scope, taken, op, request).Ok?
    ensures OpsOk(Edited(c, op, request)) && CommittedIsBase(Edited(c, op, request))
  {
    hide SpecsOk, ReservationsOk, UnresolvedOk, CommittedIsBase, OpsOk, Refused, Acceptable, ToMap, Hold, Latest;
    var d := Edited(c, op, request);
    BeginPendingOk(c, scope, taken, op, request);
    NewOperationSound(d.ops[op]);
    assert d.pending.Keys <= d.ops.Keys by { PendingAreOps(c); }
    AddedOpsOk(c, d, op);
    AddedCommitted(c, d, op);
  }

  lemma BeginKeeps(c: Cell, scope: string, taken: set<Endpoint>, op: string, request: EditRequest)
    requires CellOk(c) && op !in c.ops && BeginEdit(c, scope, taken, op, request).Ok?
    ensures CellOk(Edited(c, op, request))
  {
    hide SpecsOk, ReservationsOk, UnresolvedOk, CommittedIsBase, OpsOk, Refused, Moves, Acceptable, ToMap, Hold;
    var d, after, candidate := Edited(c, op, request), ToMap(request.ports), Latest(c) + 1;
    LatestIs(c);
    BaseIsSpec(c);
    AcceptableMoves(Ports(c, request.base), request.ports);
    NewSpecOk(c, d, candidate, request.base, after);
    HoldReservationsOk(c, d, taken, after, Changed(Ports(c, request.base), after), candidate);
    BeginOpsOk(c, scope, taken, op, request);
    CreationStays(c, d);
  }

  lemma BaseIsSpec(c: Cell)
    requires SpecsOk(c)
    ensures Base(c) in c.specs
  {
  }

  lemma PendingAreOps(c: Cell)
    requires OpsOk(c)
    ensures c.pending.Keys <= c.ops.Keys
  {
  }

  // Confirming other ports ----------------------------------------------------------------------

  /** The next revision of an undecided change is always free. */
  lemma CandidateNeverCollides(c: Cell, op: string)
    requires CellOk(c) && op in c.ops && Unresolved(c.ops[op]) && c.ops[op].newSpec.Some?
    ensures c.ops[op].newSpec.value == Latest(c) && c.ops[op].newSpec.value + 1 !in c.specs
    ensures forall id | id in c.reservations && id.Revised? :: id.revision <= c.ops[op].newSpec.value
  {
    LatestIs(c);
    assert UnresolvedOk(c, op);
  }

  lemma ConfirmBase(c: Cell, op: string, candidate: nat)
    requires CellOk(c) && op in c.ops && Unresolved(c.ops[op]) && c.ops[op].newSpec == Some(candidate)
    ensures BaseOf(c, op, candidate) == Base(c) && c.lifecycle == Managed
    ensures Base(c) <= candidate && candidate in c.specs
  {
    assert UnresolvedOk(c, op);
  }

  /** Slots that leave the candidate go to endpoints this instance does not hold. */
  lemma InspectedIsUnreserved(c: Cell, refused: set<u16>, candidate: nat, proposed: Proposal, slot: string)
    requires SpecsOk(c) && candidate in c.specs && Acceptable(c.specs[candidate], proposed)
    requires Inspected(c, refused, candidate, proposed)
    requires slot in ToMap(proposed) && slot in c.specs[candidate]
    ensures ToMap(proposed)[slot].at != c.specs[candidate][slot].at ==>
      slot in Unreserved(c.reservations, ToMap(proposed))
  {
    ToMapIs(proposed);
    var i :| 0 <= i < |proposed| && proposed[i].0 == slot;
    var port := proposed[i].1;
    assert port.at.ip == LOOPBACK by { assert Shaped(c.specs[candidate], c.specs[1].Keys); }
    assert port.at == Endpoint(LOOPBACK, port.at.host);
    var (slot', port') := proposed[i];
    assert slot' == slot && port' == port;
  }

  lemma PreviousMoves(c: Cell, op: string, candidate: nat)
    requires CellOk(c) && op in c.ops && Unresolved(c.ops[op]) && c.ops[op].newSpec == Some(candidate)
    ensures Base(c) in c.specs && candidate in c.specs
    ensures MovesHeld(c.reservations, if op in c.pending then c.pending[op].listed else {},
              c.specs[Base(c)], c.specs[candidate])
  {
    assert UnresolvedOk(c, op);
    if op !in c.pending {
      assert Base(c) == 1 == candidate;
    }
  }

  /** With the check made before confirming, every moved slot is held for the change. */
  lemma ConfirmHolds(
    c: Cell, taken: set<Endpoint>, refused: set<u16>, op: string, candidate: nat, proposed: Proposal)
    requires CellOk(c) && op in c.ops && ConfirmPorts(c, taken, op, candidate, proposed).Ok?
    requires Inspected(c, refused, candidate, proposed)
    ensures var d := Confirmed(c, op, candidate, proposed);
      && Base(c) in c.specs && MovesHeld(d.reservations, d.pending[op].listed, c.specs[Base(c)], ToMap(proposed))
  {
    hide CellOk, Hold, Refused, NewIds, Unreserved, ConfirmPorts, Acceptable, ToMap, Inspected;
    assert candidate in c.specs && Unresolved(c.ops[op]) && c.ops[op].newSpec == Some(candidate)
      && Acceptable(c.specs[candidate], proposed)
      && !Refused(c.reservations, taken, ToMap(proposed), Unreserved(c.reservations, ToMap(proposed)), candidate + 1)
      && Unreserved(c.reservations, ToMap(proposed)) <= ToMap(proposed).Keys
    by { ConfirmFacts(c, taken, op, candidate, proposed); }
    var after, rs := ToMap(proposed), c.reservations;
    var slots, before := Unreserved(rs, after), c.specs[candidate];
    var listed := if op in c.pending then c.pending[op].listed else {};
    var all := listed + NewIds(slots, candidate + 1);
    CellParts(c);
    PreviousMoves(c, op, candidate);
    HoldIs(rs, taken, after, slots, candidate + 1);
    AcceptableMoves(before, proposed);
    var held := Hold(rs, after, slots, candidate + 1);
    forall slot | slot in after
      ensures (slot in c.specs[Base(c)] && c.specs[Base(c)][slot].at == after[slot].at)
        || exists id :: id in all && id in held && held[id] == Reservation(after[slot].at, Held)
    {
      InspectedIsUnreserved(c, refused, candidate, proposed, slot);
      if after[slot].at != before[slot].at {
        var id := Revised(slot, candidate + 1);
        assert id in NewIds(slots, candidate + 1) by { IdIsNew(slots, slot, candidate + 1); }
        assert held[id] == Reservation(after[slot].at, Held);
      } else if !(slot in c.specs[Base(c)] && c.specs[Base(c)][slot].at == before[slot].at) {
        var id :| id in listed && id in rs && rs[id] == Reservation(before[slot].at, Held);
        assert held[id] == rs[id];
      }
    }
  }

  lemma IdIsNew(slots: set<string>, slot: string, revision: nat)
    requires slot in slots
    ensures Revised(slot, revision) in NewIds(slots, revision)
  {
  }

  lemma ConfirmFacts(c: Cell, taken: set<Endpoint>, op: string, candidate: nat, proposed: Proposal)
    requires CellOk(c) && op in c.ops && ConfirmPorts(c, taken, op, candidate, proposed).Ok?
    ensures candidate in c.specs && Unresolved(c.ops[op]) && c.ops[op].newSpec == Some(candidate)
    ensures Acceptable(c.specs[candidate], proposed) && candidate + 1 !in c.specs
    ensures Unreserved(c.reservations, ToMap(proposed)) <= ToMap(proposed).Keys
    ensures !Refused(c.reservations, taken, ToMap(proposed), Unreserved(c.reservations, ToMap(proposed)), candidate + 1)
    ensures c.lifecycle == Managed && c.revision == c.ops[op].expected
    ensures Creates(c.ops[op].kind) || c.ops[op].kind == EditPort
  {
    hide CellOk, Acceptable, Refused, ToMap;
    ConfirmBase(c, op, candidate);
  }

  lemma ConfirmUnresolvedOk(c: Cell, taken: set<Endpoint>, refused: set<u16>, op: string, candidate: nat, proposed: Proposal)
    requires CellOk(c) && op in c.ops && ConfirmPorts(c, taken, op, candidate, proposed).Ok?
    requires Inspected(c, refused, candidate, proposed)
    ensures UnresolvedOk(Confirmed(c, op, candidate, proposed), op)
  {
    hide CellOk, ConfirmPorts, MovesHeld, ToMap, Inspected, Hold, NewIds, Unreserved, Acceptable, Refused, Latest,
      Journal.Sound;
    ConfirmFacts(c, taken, op, candidate, proposed);
    ConfirmBase(c, op, candidate);
    ConfirmHolds(c, taken, refused, op, candidate, proposed);
    UnresolvedIsOk(c, op);
  }

  lemma UnresolvedIsOk(c: Cell, op: string)
    requires CellOk(c) && op in c.ops && Unresolved(c.ops[op])
    ensures UnresolvedOk(c, op)
  {
  }

  /** Rewriting one unresolved row, with whatever else changes checked for that row alone. */
  lemma RewrittenOpsOk(c: Cell, d: Cell, op: string)
    requires OpsOk(c) && op in c.ops && Unresolved(c.ops[op])
    requires op in d.ops && d.ops == c.ops[op := d.ops[op]] && Journal.Sound(d.ops[op])
    requires d.pending.Keys <= d.ops.Keys
    requires Unresolved(d.ops[op]) ==> UnresolvedOk(d, op)
    requires d.lifecycle == Retiring ==> Unresolved(d.ops[op]) && d.ops[op].kind == Delete
    ensures OpsOk(d)
  {
    hide UnresolvedOk, Journal.Sound;
    forall a | a in d.ops && Unresolved(d.ops[a]) ensures a == op {
      assert a != op ==> a in c.ops;
    }
  }

  lemma SameSteps(a: Operation, b: Operation)
    requires Journal.Sound(a) && b.steps == a.steps && b.attempt == a.attempt && b.kind == a.kind
    requires Terminal(b.status) ==> !Journal.AnyOpen(a.steps)
    ensures Journal.Sound(b)
  {
  }

  lemma RewrittenCommitted(c: Cell, d: Cell, op: string)
    requires CommittedIsBase(c) && op in c.ops && Unresolved(c.ops[op]) && d.applied == c.applied
    requires op in d.ops && d.ops == c.ops[op := d.ops[op]] && d.ops[op].status != Succeeded
    ensures CommittedIsBase(d)
  {
    if Base(c) != 1 {
      var o :| o in c.ops && c.ops[o].status == Succeeded && c.ops[o].newSpec == Some(Base(c));
      assert d.ops[o] == c.ops[o];
    }
  }

  lemma ConfirmKeeps(
    c: Cell, taken: set<Endpoint>, refused: set<u16>, op: string, candidate: nat, proposed: Proposal)
    requires CellOk(c) && op in c.ops && ConfirmPorts(c, taken, op, candidate, proposed).Ok?
    requires Inspected(c, refused, candidate, proposed)
    ensures CellOk(Confirmed(c, op, candidate, proposed))
  {
    hide SpecsOk, ReservationsOk, UnresolvedOk, CommittedIsBase, OpsOk, Refused, Moves, Acceptable, ToMap, Hold,
      ConfirmPorts, Inspected, Journal.Sound, Unreserved, NewIds;
    var d, after := Confirmed(c, op, candidate, proposed), ToMap(proposed);
    ConfirmFacts(c, taken, op, candidate, proposed);
    AcceptableMoves(c.specs[candidate], proposed);
    NewSpecOk(c, d, candidate + 1, candidate, after);
    HoldReservationsOk(c, d, taken, after, Unreserved(c.reservations, after), candidate + 1);
    ConfirmUnresolvedOk(c, taken, refused, op, candidate, proposed);
    assert Journal.Sound(c.ops[op]) && c.pending.Keys <= c.ops.Keys by { OpsAreSound(c); }
    SameSteps(c.ops[op], d.ops[op]);
    RewrittenOpsOk(c, d, op);
    RewrittenCommitted(c, d, op);
    CreationStays(c, d);
  }

  lemma OpsAreSound(c: Cell)
    requires OpsOk(c)
    ensures forall id | id in c.ops :: Journal.Sound(c.ops[id])
    ensures c.pending.Keys <= c.ops.Keys
  {
  }

  // Settling ------------------------------------------------------------------------------------

  /** What settling leaves: exactly the endpoints of these bindings, each committed once. */
  ghost predicate ExactlyBound(rs: Reservations, ports: Bindings) {
    && OnePerEndpoint(rs)
    && (forall at :: HasActive(rs, at) <==> Occupies(ports, at))
    && forall id | id in rs && Active(rs[id]) :: rs[id].status == Committed
  }

  /** A reservation the new bindings use ends committed. */
  lemma SettleUsed(
    rs: Reservations, listed: set<ReservationId>, before: Bindings, after: Bindings, id: ReservationId, slot: string)
    requires OnePerEndpoint(rs) && CommittedFor(rs, before) && MovesHeld(rs, listed, before, after)
    requires Distinct(before) && id in rs && Active(rs[id]) && slot in after && after[slot].at == rs[id].at
    ensures Settled(rs, listed, before, after)[id] == rs[id].(status := Committed)
  {
    if slot in before && before[slot].at == after[slot].at {
      var other :| other in rs && rs[other] == Reservation(before[slot].at, Committed);
      assert other == id;
      assert !GivenUp(before, after, rs[id].at);
    } else {
      var other :| other in listed && other in rs && rs[other] == Reservation(after[slot].at, Held);
      assert other == id;
    }
  }

  /** One reservation through the three updates of a settlement. */
  lemma SettleOne(
    rs: Reservations, listed: set<ReservationId>, before: Bindings, after: Bindings, id: ReservationId)
    requires OnePerEndpoint(rs) && CommittedFor(rs, before) && MovesHeld(rs, listed, before, after)
    requires Distinct(before) && id in rs
    ensures id in Settled(rs, listed, before, after)
    ensures Settled(rs, listed, before, after)[id] ==
      rs[id].(status := if Active(rs[id]) && Occupies(after, rs[id].at) then Committed else Released)
  {
    hide OnePerEndpoint, CommittedFor, MovesHeld, Distinct, GivenUp;
    if Active(rs[id]) && Occupies(after, rs[id].at) {
      var slot :| slot in after && after[slot].at == rs[id].at;
      SettleUsed(rs, listed, before, after, id, slot);
    }
  }

  lemma SettledIsBound(rs: Reservations, listed: set<ReservationId>, before: Bindings, after: Bindings)
    requires OnePerEndpoint(rs) && CommittedFor(rs, before) && MovesHeld(rs, listed, before, after)
    requires Distinct(before)
    ensures Settled(rs, listed, before, after).Keys == rs.Keys
    ensures ExactlyBound(Settled(rs, listed, before, after), after)
    ensures CommittedFor(Settled(rs, listed, before, after), after)
  {
    hide Settled, OnePerEndpoint, CommittedFor, MovesHeld, Distinct, Occupies;
    var settled := Settled(rs, listed, before, after);
    assert settled.Keys == rs.Keys by { SettledKeys(rs, listed, before, after); }
    forall id | id in rs
      ensures settled[id] ==
        rs[id].(status := if Active(rs[id]) && Occupies(after, rs[id].at) then Committed else Released)
    {
      SettleOne(rs, listed, before, after, id);
    }
    assert OnePerEndpoint(settled) by { FewerActive(rs, settled); }
    forall slot | slot in after ensures Has(settled, after[slot].at, Committed) {
      var id := BindingReserved(rs, listed, before, after, slot);
      assert Occupies(after, rs[id].at) by { SlotOccupies(after, slot); }
      assert settled[id] == Reservation(after[slot].at, Committed);
    }
    assert forall id | id in settled && settled[id].status == Committed :: Occupies(after, settled[id].at);
    BoundFromCommitted(settled, after);
  }

  lemma SettledKeys(rs: Reservations, listed: set<ReservationId>, before: Bindings, after: Bindings)
    ensures Settled(rs, listed, before, after).Keys == rs.Keys
  {
  }

  lemma SlotOccupies(ports: Bindings, slot: string)
    requires slot in ports
    ensures Occupies(ports, ports[slot].at)
  {
  }

  lemma FewerActive(rs: Reservations, fewer: Reservations)
    requires OnePerEndpoint(rs) && fewer.Keys == rs.Keys
    requires forall id | id in rs :: fewer[id].at == rs[id].at && (Active(fewer[id]) ==> Active(rs[id]))
    ensures OnePerEndpoint(fewer)
  {
  }

  lemma BindingReserved(
    rs: Reservations, listed: set<ReservationId>, before: Bindings, after: Bindings, slot: string)
    returns (id: ReservationId)
    requires CommittedFor(rs, before) && MovesHeld(rs, listed, before, after) && slot in after
    ensures id in rs && rs[id].at == after[slot].at && Active(rs[id])
  {
    if slot in before && before[slot].at == after[slot].at {
      id :| id in rs && rs[id] == Reservation(before[slot].at, Committed);
    } else {
      id :| id in listed && id in rs && rs[id] == Reservation(after[slot].at, Held);
    }
  }

  lemma BoundFromCommitted(rs: Reservations, ports: Bindings)
    requires OnePerEndpoint(rs)
    requires forall id | id in rs && Active(rs[id]) :: rs[id].status == Committed && Occupies(ports, rs[id].at)
    requires forall slot | slot in ports :: Has(rs, ports[slot].at, Committed)
    ensures ExactlyBound(rs, ports) && CommittedFor(rs, ports)
  {
    forall at ensures HasActive(rs, at) <==> Occupies(ports, at) {
      if Occupies(ports, at) {
        var slot :| slot in ports && ports[slot].at == at;
        var id :| id in rs && rs[id] == Reservation(ports[slot].at, Committed);
        assert id in rs && rs[id].at == at && Active(rs[id]);
      }
    }
  }

  // Finishing ----------------------------------------------------------------------------------

  lemma PendingParts(c: Cell, op: string, restore: bool)
    requires CellOk(c) && op in c.ops && op in c.pending && Unresolved(c.ops[op])
    ensures var p, target := c.pending[op], Target(c.pending[op], restore);
      && p.base == Base(c) && c.lifecycle == Managed && p.base in c.specs && p.candidate in c.specs
      && Distinct(c.specs[p.base]) && OnePerEndpoint(c.reservations) && CommittedFor(c.reservations, c.specs[p.base])
      && MovesHeld(c.reservations, p.listed, c.specs[p.base], c.specs[target])
      && p.hash == PortsHash(c.specs[p.candidate]) && p.base < p.candidate
      && c.ops[op].newSpec == Some(p.candidate) && c.ops[op].oldSpec == Some(p.base)
  {
    assert UnresolvedOk(c, op);
    assert Shaped(c.specs[c.pending[op].base], c.specs[1].Keys);
  }

  lemma ReservedOnce(rs: Reservations, ports: Bindings)
    requires OnePerEndpoint(rs) && forall slot | slot in ports :: HasActive(rs, ports[slot].at)
    ensures EachReservedOnce(rs, ports)
  {
    forall slot | slot in ports ensures |ActiveAt(rs, ports[slot].at)| == 1 {
      assert HasActive(rs, ports[slot].at);
      var id :| id in rs && rs[id].at == ports[slot].at && Active(rs[id]);
      assert ActiveAt(rs, ports[slot].at) == {id};
    }
  }

  /** Neither the reservation count nor the confirmed hash can be what refuses a settlement. */
  lemma FinishNeverMiscounts(c: Cell, op: string, restore: bool)
    requires CellOk(c) && op in c.ops && op in c.pending && Unresolved(c.ops[op])
    ensures EachReservedOnce(c.reservations, Ports(c, Target(c.pending[op], restore)))
    ensures PortsHash(Ports(c, c.pending[op].candidate)) == c.pending[op].hash
  {
    hide CellOk, OnePerEndpoint, CommittedFor, MovesHeld, Distinct;
    PendingParts(c, op, restore);
    var p := c.pending[op];
    var ports := c.specs[Target(p, restore)];
    forall slot | slot in ports ensures HasActive(c.reservations, ports[slot].at) {
      var id := BindingReserved(c.reservations, p.listed, c.specs[p.base], ports, slot);
    }
    ReservedOnce(c.reservations, ports);
  }

  lemma FinishFacts(c: Cell, op: string, container: string, restore: bool, published: bool)
    requires CellOk(c) && FinishChange(c, op, container, restore, published).Ok?
    ensures op in c.ops && op in c.pending && Unresolved(c.ops[op])
    ensures c.ops[op].kind == EditPort || Creates(c.ops[op].kind)
    ensures c.ops[op].kind == EditPort ==> c.applied == Some(c.pending[op].base)
    ensures Creates(c.ops[op].kind) ==> !restore && c.applied.None?
    ensures !Journal.AnyOpen(c.ops[op].steps)
  {
    hide SpecsOk, ReservationsOk, CommittedIsBase, EachReservedOnce;
    Journal.LastClosedMeansAllClosed(c.ops[op]);
    Journal.LastIsCount(c.ops[op].steps);
  }

  /**
   * Whenever a settlement succeeds, committed or restored, the instance's active reservations are
   * exactly the endpoints of the bindings now in effect, each committed once.
   */
  lemma FinishBindsExactly(c: Cell, op: string, container: string, restore: bool, published: bool)
    requires CellOk(c) && FinishChange(c, op, container, restore, published).Ok?
    ensures var d := Finished(c, op, restore);
      && d.applied == Some(Target(c.pending[op], restore)) && d.applied.value in d.specs
      && ExactlyBound(d.reservations, d.specs[d.applied.value])
      && (restore ==> d.applied == c.applied && d.specs == c.specs)
      && (restore ==> CommittedFor(c.reservations, d.specs[d.applied.value]))
  {
    hide CellOk, FinishChange, OnePerEndpoint, CommittedFor, MovesHeld, Distinct, Settled, ExactlyBound;
    FinishFacts(c, op, container, restore, published);
    PendingParts(c, op, restore);
    var p := c.pending[op];
    SettledIsBound(c.reservations, p.listed, c.specs[p.base], c.specs[Target(p, restore)]);
  }

  lemma FinishReservationsOk(c: Cell, op: string, container: string, restore: bool, published: bool)
    requires CellOk(c) && FinishChange(c, op, container, restore, published).Ok?
    ensures SpecsOk(Finished(c, op, restore)) && ReservationsOk(Finished(c, op, restore))
  {
    hide CellOk, FinishChange, OnePerEndpoint, CommittedFor, MovesHeld, Distinct, Settled, ExactlyBound, OpsOk;
    FinishFacts(c, op, container, restore, published);
    PendingParts(c, op, restore);
    CellParts(c);
    var p := c.pending[op];
    SettledIsBound(c.reservations, p.listed, c.specs[p.base], c.specs[Target(p, restore)]);
    assert ExactlyBound(Finished(c, op, restore).reservations, c.specs[Target(p, restore)]);
    BoundIsOnePer(Finished(c, op, restore).reservations, c.specs[Target(p, restore)]);
  }

  lemma BoundIsOnePer(rs: Reservations, ports: Bindings)
    requires ExactlyBound(rs, ports)
    ensures OnePerEndpoint(rs)
  {
  }

  lemma FinishOpsOk(c: Cell, op: string, container: string, restore: bool, published: bool)
    requires CellOk(c) && FinishChange(c, op, container, restore, published).Ok?
    ensures OpsOk(Finished(c, op, restore))
  {
    hide CellOk, FinishChange, Settled, Journal.Sound, UnresolvedOk;
    FinishFacts(c, op, container, restore, published);
    PendingParts(c, op, restore);
    CellParts(c);
    OpsAreSound(c);
    var d := Finished(c, op, restore);
    SameSteps(c.ops[op], d.ops[op]);
    RewrittenOpsOk(c, d, op);
  }

  lemma FinishCommitted(c: Cell, op: string, restore: bool)
    requires CommittedIsBase(c) && op in c.ops && op in c.pending && Unresolved(c.ops[op])
    requires var p := c.pending[op]; p.base == Base(c) && p.base < p.candidate && c.ops[op].newSpec == Some(p.candidate)
    ensures CommittedIsBase(Finished(c, op, restore))
  {
    hide Settled;
    var d := Finished(c, op, restore);
    if restore {
      if Base(c) != 1 {
        var o :| o in c.ops && c.ops[o].status == Succeeded && c.ops[o].newSpec == Some(Base(c));
        assert d.ops[o] == c.ops[o];
      }
    } else {
      assert d.ops[op].status == Succeeded && d.ops[op].newSpec == Some(Base(d));
    }
  }

  lemma FinishKeeps(c: Cell, op: string, container: string, restore: bool, published: bool)
    requires CellOk(c) && FinishChange(c, op, container, restore, published).Ok?
    ensures CellOk(Finished(c, op, restore))
  {
    hide FinishChange, SpecsOk, ReservationsOk, OpsOk, CommittedIsBase, Settled, Distinct, CommittedFor, MovesHeld,
      OnePerEndpoint;
    FinishFacts(c, op, container, restore, published);
    FinishReservationsOk(c, op, container, restore, published);
    FinishOpsOk(c, op, container, restore, published);
    PendingParts(c, op, restore);
    FinishCommitted(c, op, restore);
    FinishCreated(c, op, restore);
  }

  lemma FinishCreated(c: Cell, op: string, restore: bool)
    requires AppliedIsCreated(c) && op in c.ops && op in c.pending && Unresolved(c.ops[op])
    requires c.ops[op].kind == EditPort ==> c.applied.Some?
    requires Creates(c.ops[op].kind) ==> !restore
    requires c.ops[op].kind == EditPort || Creates(c.ops[op].kind)
    ensures AppliedIsCreated(Finished(c, op, restore))
  {
    hide Settled;
    var d := Finished(c, op, restore);
    if Creates(c.ops[op].kind) {
      assert CreationDone(d.ops[op]);
    } else {
      var id :| id in c.ops && CreationDone(c.ops[id]);
      assert d.ops[id] == c.ops[id];
    }
  }

  // Abandoning a change ------------------------------------------------------------------------

  /** Outside a retired instance, reservations match the bindings exactly when none is merely held. */
  lemma BoundIffNoneHeld(c: Cell)
    requires CellOk(c) && c.lifecycle != Retired
    ensures ExactlyBound(c.reservations, c.specs[Base(c)]) <==>
      forall id | id in c.reservations :: c.reservations[id].status != Held
  {
    hide Occupies;
    var rs, ports := c.reservations, c.specs[Base(c)];
    if forall id | id in rs :: rs[id].status != Held {
      BoundFromCommitted(rs, ports);
    }
  }

  /** Abandoning an edit from the journal keeps its held ports, so they stay out of reach. */
  lemma AbandonLeavesHeld(c: Cell, op: string, attempt: nat)
    requires CellOk(c) && op in c.ops && op in c.pending
    requires Journal.Apply(c.ops[op], Journal.Abandon(attempt)).Ok?
    ensures var d := c.(ops := c.ops[op := Journal.Apply(c.ops[op], Journal.Abandon(attempt)).value]);
      && CellOk(d)
      && (ExactlyBound(d.reservations, d.specs[Base(d)]) ==>
            forall slot | slot in Ports(c, c.pending[op].candidate) :: slot in Ports(c, c.pending[op].base)
              && Ports(c, c.pending[op].candidate)[slot].at == Ports(c, c.pending[op].base)[slot].at)
  {
    hide CellOk, ExactlyBound, MovesHeld, CommittedFor, Distinct, OnePerEndpoint;
    var d := c.(ops := c.ops[op := Journal.Apply(c.ops[op], Journal.Abandon(attempt)).value]);
    PendingParts(c, op, false);
    JournalKeeps(c, op, Journal.Abandon(attempt));
    BoundIffNoneHeld(d);
    var p := c.pending[op];
    forall slot | slot in c.specs[p.candidate] && ExactlyBound(d.reservations, d.specs[Base(d)])
      ensures slot in c.specs[p.base] && c.specs[p.candidate][slot].at == c.specs[p.base][slot].at
    {
      MovedSlotHeld(c.reservations, p.listed, c.specs[p.base], c.specs[p.candidate], slot);
    }
  }

  lemma MovedSlotHeld(
    rs: Reservations, listed: set<ReservationId>, before: Bindings, after: Bindings, slot: string)
    requires MovesHeld(rs, listed, before, after) && slot in after
    requires forall id | id in rs :: rs[id].status != Held
    ensures slot in before && before[slot].at == after[slot].at
  {
  }

  /** The step that leaves the artifact of a candidate in place. */
  function ArtifactStep(artifact: string): Step {
    Step(1, GenerateArtifact, artifact, ArtifactReady, Some(StepSucceeded))
  }

  /** What an edit becomes when it fails after its artifact was published, and is then abandoned. */
  ghost function GivenUpEdit(c: Cell, op: string, request: EditRequest, artifact: string): Cell {
    var begun := Edited(c, op, request);
    begun.(ops := begun.ops[op := begun.ops[op].(
      status := Abandoned, phase := "abandoned", steps := map[1 := ArtifactStep(artifact)])])
  }

  lemma ArtifactRecorded(o: Operation, artifact: string)
    requires o.attempt == 1 && o.status == Accepted && o.steps == map[] && artifact != ""
    ensures var open := o.(steps := map[1 := ArtifactStep(artifact).(outcome := None)]);
      && Journal.Apply(o, Journal.Record(1, 1, GenerateArtifact, artifact, ArtifactReady)) == Ok(open)
      && Journal.Apply(open, Journal.Finish(1, StepSucceeded)) == Ok(o.(steps := map[1 := ArtifactStep(artifact)]))
  {
    Journal.LastIsCount(o.steps);
    var open := o.(steps := map[1 := ArtifactStep(artifact).(outcome := None)]);
    assert Journal.Closed(open, 1, StepSucceeded).steps == map[1 := ArtifactStep(artifact)];
  }

  lemma FailedIsAbandoned(o: Operation, artifact: string)
    requires o.kind == EditPort && o.attempt == 1 && Unresolved(o) && o.steps == map[1 := ArtifactStep(artifact)]
    ensures var failed := o.(status := Failed, phase := "failed");
      && Journal.Apply(o, Journal.SetStatus(Failed, "failed")) == Ok(failed)
      && Journal.Apply(failed, Journal.Abandon(1)) == Ok(failed.(status := Abandoned, phase := "abandoned"))
  {
  }

  /** One more accepted journal call on a sound instance. */
  lemma CallMade(c: Cell, op: string, call: Journal.Call, after: Operation)
    requires CellOk(c) && op in c.ops && Quiet(call) && Journal.Apply(c.ops[op], call) == Ok(after)
    ensures CellOk(c.(ops := c.ops[op := after]))
  {
    hide CellOk, Journal.Apply, Quiet;
    JournalKeeps(c, op, call);
  }

  lemma EditHolds(c: Cell, scope: string, taken: set<Endpoint>, op: string, request: EditRequest)
    requires CellOk(c) && BeginEdit(c, scope, taken, op, request).Ok?
    ensures exists id :: id in Edited(c, op, request).reservations && Edited(c, op, request).reservations[id].status == Held
  {
    hide CellOk, ToMap, Acceptable, Refused, Latest, Busy;
    var before, after, candidate := Ports(c, request.base), ToMap(request.ports), Latest(c) + 1;
    AcceptableMoves(before, request.ports);
    var slot :| slot in after && after[slot].at.host != before[slot].at.host;
    assert slot in Changed(before, after);
    assert Revised(slot, candidate) in NewIds(Changed(before, after), candidate);
    assert Edited(c, op, request).reservations[Revised(slot, candidate)].status == Held;
  }

  /** The four journal calls of such an edit keep the instance sound. */
  lemma GivenUpKeeps(begun: Cell, op: string, artifact: string)
    requires CellOk(begun) && op in begun.ops && artifact != ""
    requires var o := begun.ops[op]; o.kind == EditPort && o.attempt == 1 && o.status == Accepted && o.steps == map[]
    ensures CellOk(begun.(ops := begun.ops[op := begun.ops[op].(
      status := Abandoned, phase := "abandoned", steps := map[1 := ArtifactStep(artifact)])]))
  {
    hide CellOk, Journal.Apply, ArtifactStep;
    var o := begun.ops[op];
    var open := o.(steps := map[1 := ArtifactStep(artifact).(outcome := None)]);
    var closed := o.(steps := map[1 := ArtifactStep(artifact)]);
    var failed := closed.(status := Failed, phase := "failed");
    var gone := failed.(status := Abandoned, phase := "abandoned");
    ArtifactRecorded(o, artifact);
    FailedIsAbandoned(closed, artifact);
    CallMade(begun, op, Journal.Record(1, 1, GenerateArtifact, artifact, ArtifactReady), open);
    CallMade(begun.(ops := begun.ops[op := open]), op, Journal.Finish(1, StepSucceeded), closed);
    assert begun.ops[op := open][op := closed] == begun.ops[op := closed];
    CallMade(begun.(ops := begun.ops[op := closed]), op, Journal.SetStatus(Failed, "failed"), failed);
    assert begun.ops[op := closed][op := failed] == begun.ops[op := failed];
    CallMade(begun.(ops := begun.ops[op := failed]), op, Journal.Abandon(1), gone);
    assert begun.ops[op := failed][op := gone] == begun.ops[op := gone];
  }

  /** Every edit given up in this way leaves ports reserved that no bindings use. */
  lemma GivenUpEditIsNotBound(
    c: Cell, scope: string, taken: set<Endpoint>, op: string, request: EditRequest, artifact: string)
    requires CellOk(c) && op !in c.ops && BeginEdit(c, scope, taken, op, request).Ok? && artifact != ""
    ensures var d := GivenUpEdit(c, op, request, artifact);
      CellOk(d) && d.applied == c.applied && Base(d) in d.specs && !ExactlyBound(d.reservations, d.specs[Base(d)])
  {
    hide CellOk, Edited, BeginEdit, ExactlyBound;
    var begun, d := Edited(c, op, request), GivenUpEdit(c, op, request, artifact);
    BeginKeeps(c, scope, taken, op, request);
    EditedHeader(c, scope, taken, op, request);
    GivenUpKeeps(begun, op, artifact);
    EditHolds(c, scope, taken, op, request);
    assert Base(d) in d.specs by { CellParts(d); }
    BoundIffNoneHeld(d);
  }

  lemma EditedHeader(c: Cell, scope: string, taken: set<Endpoint>, op: string, request: EditRequest)
    requires BeginEdit(c, scope, taken, op, request).Ok?
    ensures var d := Edited(c, op, request);
      && op in d.ops && d.applied == c.applied && d.lifecycle == Managed
      && d.ops[op].kind == EditPort && d.ops[op].attempt == 1 && d.ops[op].status == Accepted && d.ops[op].steps == map[]
  {
    hide Acceptable, ToMap, Hold, Refused, Busy, Latest;
  }
}
