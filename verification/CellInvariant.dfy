/** What holds of every instance between any two transactions. */
module CellInvariant {
  import opened Wrappers
  import opened LedgerTypes
  import opened PortEdits
  import Journal

  /** The revision whose bindings are in effect; before the first completion, revision one. */
  function Base(c: Cell): nat { c.applied.GetOr(1) }

  ghost predicate Distinct(ports: Bindings) {
    forall s, t | s in ports && t in ports && s != t :: ports[s].at != ports[t].at
  }

  /** Bindings for exactly these slots, all on the loopback address, no two on one endpoint. */
  ghost predicate Shaped(ports: Bindings, slots: set<string>) {
    ports.Keys == slots && Distinct(ports) && forall slot | slot in ports :: ports[slot].at.ip == LOOPBACK
  }

  ghost predicate SpecsOk(c: Cell) {
    && 0 !in c.specs && 1 in c.specs && Base(c) in c.specs
    && forall r | r in c.specs :: Shaped(c.specs[r], c.specs[1].Keys)
  }

  ghost predicate OnePerEndpoint(rs: Reservations) {
    forall a, b | a in rs && b in rs && a != b && Active(rs[a]) && Active(rs[b]) :: rs[a].at != rs[b].at
  }

  /** Committed reservations are those of these bindings, one each. */
  ghost predicate CommittedFor(rs: Reservations, ports: Bindings) {
    && (forall id | id in rs && rs[id].status == Committed :: Occupies(ports, rs[id].at))
    && (forall slot | slot in ports :: Has(rs, ports[slot].at, Committed))
  }

  ghost predicate ReservationsOk(c: Cell) {
    && OnePerEndpoint(c.reservations)
    && (forall id | id in c.reservations && id.Revised? :: id.revision in c.specs)
    && (c.lifecycle == Retired ==> forall id | id in c.reservations :: !Active(c.reservations[id]))
    && (c.lifecycle != Retired ==> Base(c) in c.specs && CommittedFor(c.reservations, c.specs[Base(c)]))
  }

  /** Every slot a pending change moves has a reservation held for that change. */
  ghost predicate MovesHeld(rs: Reservations, listed: set<ReservationId>, before: Bindings, after: Bindings) {
    forall slot | slot in after ::
      || (slot in before && before[slot].at == after[slot].at)
      || exists id :: id in listed && id in rs && rs[id] == Reservation(after[slot].at, Held)
  }

  ghost predicate PendingOk(c: Cell, id: string)
    requires id in c.ops && id in c.pending
  {
    var o, p := c.ops[id], c.pending[id];
    && p.base == Base(c) && p.base in c.specs && p.candidate in c.specs && p.base < p.candidate
    && o.oldSpec == Some(p.base) && o.newSpec == Some(p.candidate)
    && p.hash == PortsHash(c.specs[p.candidate])
    && MovesHeld(c.reservations, p.listed, c.specs[p.base], c.specs[p.candidate])
  }

  ghost predicate UnresolvedOk(c: Cell, id: string)
    requires id in c.ops
  {
    var o := c.ops[id];
    && c.lifecycle == (if o.kind == Delete then Retiring else Managed)
    && c.revision == o.expected + (if o.kind == Delete then 1 else 0)
    && (o.newSpec.Some? <==> Creates(o.kind) || o.kind == EditPort)
    && (o.newSpec.Some? ==> o.newSpec.value in c.specs && forall r | r in c.specs :: r <= o.newSpec.value)
    && (Creates(o.kind) ==> c.applied.None? && (id !in c.pending ==> o.newSpec == Some(1) && o.oldSpec.None?))
    && (o.kind == EditPort ==> id in c.pending && c.applied.Some?)
    && (id in c.pending ==> o.newSpec.Some? && PendingOk(c, id))
  }

  /** The committed revision that readers derive is the one in effect. */
  ghost predicate CommittedIsBase(c: Cell) {
    && (forall id | id in c.ops && c.ops[id].status == Succeeded && c.ops[id].newSpec.Some? ::
          1 <= c.ops[id].newSpec.value <= Base(c))
    && (Base(c) == 1 || exists id :: id in c.ops && c.ops[id].status == Succeeded && c.ops[id].newSpec == Some(Base(c)))
  }

  ghost predicate OpsOk(c: Cell) {
    && (forall id | id in c.ops :: Journal.Sound(c.ops[id]))
    && (forall a, b | a in c.ops && b in c.ops && Unresolved(c.ops[a]) && Unresolved(c.ops[b]) :: a == b)
    && (forall id | id in c.ops && Unresolved(c.ops[id]) :: UnresolvedOk(c, id))
    && (c.lifecycle == Retiring ==> exists id :: id in c.ops && Unresolved(c.ops[id]) && c.ops[id].kind == Delete)
    && c.pending.Keys <= c.ops.Keys
  }

  /** Storage counts as ready only once a creation has been completed, and no resource is allocated twice. */
  ghost predicate StorageOk(c: Cell) {
    && (forall slot | slot in c.storage && c.storage[slot].initialization == ReadyObserved :: c.applied.Some?)
    && DistinctResources(c.storage)
  }

  predicate CreationDone(op: Operation) { op.status == Succeeded && Creates(op.kind) }

  /** Bindings are in effect only after the creation or the clone of the instance succeeded. */
  ghost predicate AppliedIsCreated(c: Cell) {
    c.applied.Some? ==> exists id :: id in c.ops && CreationDone(c.ops[id])
  }

  ghost predicate CellOk(c: Cell) {
    SpecsOk(c) && ReservationsOk(c) && OpsOk(c) && CommittedIsBase(c) && StorageOk(c) && AppliedIsCreated(c)
  }

  /** Succeeded creations never disappear. */
  lemma CreationStays(c: Cell, d: Cell)
    requires AppliedIsCreated(c) && (d.applied.Some? ==> c.applied.Some?)
    requires forall id | id in c.ops && CreationDone(c.ops[id]) :: id in d.ops && CreationDone(d.ops[id])
    ensures AppliedIsCreated(d)
  {
    if d.applied.Some? {
      var id :| id in c.ops && CreationDone(c.ops[id]);
      assert id in d.ops && CreationDone(d.ops[id]);
    }
  }

  // The committed revision -----------------------------------------------------------------

  lemma CommittedRevisionIsBase(c: Cell)
    requires CommittedIsBase(c)
    ensures CommittedRevision(c) == Base(c)
  {
    LargestIs(CommittedRevisions(c));
    if CommittedRevisions(c) != {} {
      var r := Largest(CommittedRevisions(c));
      var id :| id in c.ops && c.ops[id].status == Succeeded && c.ops[id].newSpec == Some(r);
    }
    assert Base(c) != 1 ==> Base(c) in CommittedRevisions(c);
  }

  // Journal calls ----------------------------------------------------------------------------

  /** A change to one operation row that no other row can notice. */
  ghost predicate QuietUpdate(before: Operation, after: Operation) {
    && Journal.SameRequest(before, after) && Journal.Sound(after)
    && (Unresolved(after) ==> Unresolved(before))
    && (after.status == Succeeded <==> before.status == Succeeded)
    && (after.kind == Delete ==> (Unresolved(before) <==> Unresolved(after)))
  }

  lemma QuietOpsOk(c: Cell, id: string, after: Operation)
    requires OpsOk(c) && id in c.ops && QuietUpdate(c.ops[id], after)
    ensures OpsOk(c.(ops := c.ops[id := after]))
  {
    hide Journal.Sound, MovesHeld;
    var d := c.(ops := c.ops[id := after]);
    forall o | o in d.ops && Unresolved(d.ops[o]) ensures UnresolvedOk(d, o) {
      assert UnresolvedOk(c, o);
    }
    if c.lifecycle == Retiring {
      var o :| o in c.ops && Unresolved(c.ops[o]) && c.ops[o].kind == Delete;
      assert Unresolved(d.ops[o]) && d.ops[o].kind == Delete;
    }
  }

  /** Rewriting one row without moving it into or out of the succeeded ones. */
  lemma SameCommitted(c: Cell, id: string, after: Operation)
    requires CommittedIsBase(c) && id in c.ops && after.newSpec == c.ops[id].newSpec
    requires after.status == Succeeded <==> c.ops[id].status == Succeeded
    ensures CommittedIsBase(c.(ops := c.ops[id := after]))
  {
    var d := c.(ops := c.ops[id := after]);
    if Base(c) != 1 {
      var o :| o in c.ops && c.ops[o].status == Succeeded && c.ops[o].newSpec == Some(Base(c));
      assert d.ops[o].status == Succeeded && d.ops[o].newSpec == Some(Base(c));
    }
  }

  lemma QuietUpdateKeeps(c: Cell, id: string, after: Operation)
    requires CellOk(c) && id in c.ops && QuietUpdate(c.ops[id], after)
    ensures CellOk(c.(ops := c.ops[id := after]))
  {
    hide ReservationsOk, SpecsOk, OpsOk, CommittedIsBase, AppliedIsCreated, Journal.Sound;
    SameHeader(c, c.(ops := c.ops[id := after]));
    CreationStays(c, c.(ops := c.ops[id := after]));
    QuietOpsOk(c, id, after);
    SameCommitted(c, id, after);
  }

  /** Specs and reservations are all that two of the predicates look at. */
  lemma SameHeader(c: Cell, d: Cell)
    requires SpecsOk(c) && ReservationsOk(c)
    requires d.specs == c.specs && d.reservations == c.reservations && d.applied == c.applied
    requires (d.lifecycle == Retired) == (c.lifecycle == Retired)
    ensures SpecsOk(d) && ReservationsOk(d)
  {
  }

  /** Calls of the journal the program makes: no status is set to a terminal one from outside. */
  predicate Quiet(call: Journal.Call) {
    call.SetStatus? ==> !Terminal(call.status)
  }

  lemma QuietCall(o: Operation, call: Journal.Call)
    requires Journal.Sound(o) && Quiet(call) && Journal.Apply(o, call).Ok?
    ensures QuietUpdate(o, Journal.Apply(o, call).value)
  {
    hide Journal.Sound, Journal.AnyOpen, Journal.AnyUnknown;
    Journal.CallKeeps(o, call);
  }

  lemma RowsSound(c: Cell, id: string)
    requires OpsOk(c) && id in c.ops
    ensures Journal.Sound(c.ops[id])
  {
    hide Journal.Sound, UnresolvedOk;
  }

  lemma JournalKeeps(c: Cell, id: string, call: Journal.Call)
    requires CellOk(c) && id in c.ops && Quiet(call) && Journal.Apply(c.ops[id], call).Ok?
    ensures CellOk(c.(ops := c.ops[id := Journal.Apply(c.ops[id], call).value]))
  {
    hide CellOk, OpsOk, Journal.Sound, Journal.Apply, QuietUpdate, Quiet;
    CellParts(c);
    RowsSound(c, id);
    QuietCall(c.ops[id], call);
    QuietUpdateKeeps(c, id, Journal.Apply(c.ops[id], call).value);
  }

  lemma CellParts(c: Cell)
    requires CellOk(c)
    ensures SpecsOk(c) && ReservationsOk(c) && OpsOk(c) && CommittedIsBase(c) && StorageOk(c) && AppliedIsCreated(c)
  {
  }
}
