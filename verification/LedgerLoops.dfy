/** The row-by-row loops inside the store's transactions. */
module LedgerLoops {
  import opened Wrappers
  import opened LedgerTypes
  import opened PortEdits
  import opened CellInvariant
  import opened InstanceSteps
  import opened LedgerStore

  method FindLargest(keys: set<nat>) returns (largest: nat)
    ensures largest == Largest(keys)
  {
    largest := 0;
    var left := keys;
    while left != {}
      invariant left <= keys
      invariant forall k | k in keys && k !in left :: k <= largest
      invariant (left == keys && largest == 0) || (largest in keys && largest !in left)
      decreases |left|
    {
      var k :| k in left;
      if left == keys || k > largest { largest := k; }
      left := left - {k};
    }
    LargestIs(keys);
  }

  // Proposed ports --------------------------------------------------------------------------------

  ghost predicate PrefixAccepted(before: Bindings, proposed: Proposal, n: nat)
    requires n <= |proposed|
  {
    && (forall i | 0 <= i < n ::
          && proposed[i].0 in before && proposed[i].1.at.ip == before[proposed[i].0].at.ip
          && proposed[i].1.container == before[proposed[i].0].container && proposed[i].1.at.host >= 1024)
    && (forall i, j | 0 <= i < j < n :: proposed[i].0 != proposed[j].0 && proposed[i].1.at != proposed[j].1.at)
  }

  /** What was read of the first n ports: their bindings, and their endpoints. */
  ghost predicate Collected(proposed: Proposal, n: nat, collected: Bindings, ports: set<Endpoint>)
    requires n <= |proposed|
  {
    && collected == ToMap(proposed[..n])
    && (forall slot :: slot in collected <==> exists i :: 0 <= i < n && proposed[i].0 == slot)
    && (forall at :: at in ports <==> exists i :: 0 <= i < n && proposed[i].1.at == at)
  }

  lemma NoneCollected(proposed: Proposal)
    ensures Collected(proposed, 0, map[], {})
  {
  }

  lemma OneCollected(proposed: Proposal, n: nat, collected: Bindings, ports: set<Endpoint>)
    requires n < |proposed| && Collected(proposed, n, collected, ports)
    ensures Collected(proposed, n + 1, collected[proposed[n].0 := proposed[n].1], ports + {proposed[n].1.at})
  {
    assert proposed[..n + 1][..n] == proposed[..n];
  }

  lemma PrefixMore(before: Bindings, proposed: Proposal, n: nat, collected: Bindings, ports: set<Endpoint>)
    requires n < |proposed| && PrefixAccepted(before, proposed, n) && Collected(proposed, n, collected, ports)
    ensures PrefixAccepted(before, proposed, n + 1) <==>
      && proposed[n].0 in before && proposed[n].1.at.ip == before[proposed[n].0].at.ip
      && proposed[n].1.container == before[proposed[n].0].container && proposed[n].1.at.host >= 1024
      && proposed[n].1.at !in ports && proposed[n].0 !in collected
  {
    hide ToMap;
  }

  lemma PrefixFalls(before: Bindings, proposed: Proposal, n: nat)
    requires n <= |proposed| && PrefixAccepted(before, proposed, |proposed|)
    ensures PrefixAccepted(before, proposed, n)
  {
  }

  /** Reads the proposal one port at a time. */
  method CollectPorts(before: Bindings, proposed: Proposal) returns (next: Option<Bindings>)
    ensures next.Some? <==> PrefixAccepted(before, proposed, |proposed|)
    ensures next.Some? ==> next.value == ToMap(proposed)
  {
    hide PrefixAccepted, Collected, ToMap;
    var collected: Bindings := map[];
    var ports: set<Endpoint> := {};
    NoneCollected(proposed);
    NoPrefix(before, proposed);
    for n := 0 to |proposed|
      invariant PrefixAccepted(before, proposed, n) && Collected(proposed, n, collected, ports)
    {
      var (slot, port) := proposed[n];
      assert proposed[n] == (slot, port);
      PrefixMore(before, proposed, n, collected, ports);
      if PrefixAccepted(before, proposed, |proposed|) { PrefixFalls(before, proposed, n + 1); }
      if slot !in before { return None; }
      var previous := before[slot];
      if port.at.ip != previous.at.ip || port.container != previous.container || port.at.host < 1024 { return None; }
      if port.at in ports || slot in collected { return None; }
      OneCollected(proposed, n, collected, ports);
      ports := ports + {port.at};
      collected := collected[slot := port];
    }
    AllCollected(proposed, collected, ports);
    next := Some(collected);
  }

  lemma NoPrefix(before: Bindings, proposed: Proposal)
    ensures PrefixAccepted(before, proposed, 0)
  {
  }

  lemma AllCollected(proposed: Proposal, collected: Bindings, ports: set<Endpoint>)
    requires Collected(proposed, |proposed|, collected, ports)
    ensures collected == ToMap(proposed)
  {
    assert proposed[..|proposed|] == proposed;
  }

  predicate SomeMoves(before: Bindings, after: Bindings) {
    exists slot :: slot in after && slot in before && after[slot].at.host != before[slot].at.host
  }

  lemma CollectedIsAcceptable(before: Bindings, proposed: Proposal)
    requires PrefixAccepted(before, proposed, |proposed|)
    requires ToMap(proposed).Keys == before.Keys && SomeMoves(before, ToMap(proposed))
    ensures Acceptable(before, proposed)
  {
    hide ToMap;
    ToMapIs(proposed);
    var next := ToMap(proposed);
    forall slot | slot in before ensures exists i :: 0 <= i < |proposed| && proposed[i].0 == slot {
      assert slot in next;
    }
    var slot :| slot in next && slot in before && next[slot].at.host != before[slot].at.host;
    var i :| 0 <= i < |proposed| && proposed[i].0 == slot;
    assert proposed[i].1.at.host != before[proposed[i].0].at.host;
  }

  lemma AcceptableIsCollected(before: Bindings, proposed: Proposal)
    requires Acceptable(before, proposed)
    ensures PrefixAccepted(before, proposed, |proposed|)
    ensures ToMap(proposed).Keys == before.Keys && SomeMoves(before, ToMap(proposed))
  {
    hide ToMap, Acceptable, PrefixAccepted;
    AcceptedPrefix(before, proposed);
    AcceptableMoves(before, proposed);
  }

  lemma AcceptedPrefix(before: Bindings, proposed: Proposal)
    requires Acceptable(before, proposed)
    ensures PrefixAccepted(before, proposed, |proposed|)
  {
  }

  /** Accepts exactly the proposals that rename nothing and move some host port. */
  method CheckPorts(before: Bindings, proposed: Proposal) returns (r: Result<Bindings, Conflict>)
    ensures r == if Acceptable(before, proposed) then Ok(ToMap(proposed)) else Err(InvalidInput)
  {
    hide Acceptable, ToMap, PrefixAccepted;
    if Acceptable(before, proposed) { AcceptableIsCollected(before, proposed); }
    var next := CollectPorts(before, proposed);
    if next.None? { return Err(InvalidInput); }
    var after := next.value;
    if after.Keys != before.Keys { return Err(InvalidInput); }
    if forall slot | slot in before :: after[slot].at.host == before[slot].at.host { return Err(InvalidInput); }
    CollectedIsAcceptable(before, proposed);
    r := Ok(after);
  }

  // Reservations ------------------------------------------------------------------------------------

  predicate Reserved(rs: Reservations, at: Endpoint)
    ensures Reserved(rs, at) == HasActive(rs, at)
  {
    exists id :: id in rs && rs[id].at == at && Active(rs[id])
  }

  lemma NewIdsMore(slots: set<string>, slot: string, revision: nat)
    requires slot !in slots
    ensures NewIds(slots + {slot}, revision) == NewIds(slots, revision) + {Revised(slot, revision)}
    ensures Revised(slot, revision) !in NewIds(slots, revision)
  {
  }

  lemma HoldOneMore(rs: Reservations, after: Bindings, slots: set<string>, slot: string, revision: nat)
    requires slots <= after.Keys && slot in after && slot !in slots
    ensures Hold(rs, after, slots + {slot}, revision)
      == Hold(rs, after, slots, revision)[Revised(slot, revision) := Reservation(after[slot].at, Held)]
    ensures Revised(slot, revision) in Hold(rs, after, slots, revision) <==> Revised(slot, revision) in rs
  {
    hide NewIds;
    NewIdsMore(slots, slot, revision);
    NewIdsHaveSlots(slots, revision);
  }

  lemma NewIdsHaveSlots(slots: set<string>, revision: nat)
    ensures forall id | id in NewIds(slots, revision) :: id.Revised? && id.slot in slots
  {
  }

  lemma HoldReserves(rs: Reservations, after: Bindings, slots: set<string>, slot: string, revision: nat)
    requires slots <= after.Keys && slot in after && slot !in slots && Distinct(after)
    requires forall s | s in slots :: Revised(s, revision) !in rs
    ensures HasActive(Hold(rs, after, slots, revision), after[slot].at) <==> HasActive(rs, after[slot].at)
  {
    var held := Hold(rs, after, slots, revision);
    if HasActive(rs, after[slot].at) {
      var id :| id in rs && rs[id].at == after[slot].at && Active(rs[id]);
      assert id !in NewIds(slots, revision);
      assert held[id] == rs[id];
    }
    if HasActive(held, after[slot].at) {
      var id :| id in held && held[id].at == after[slot].at && Active(held[id]);
      assert id !in NewIds(slots, revision);
    }
  }

  ghost predicate Free(rs: Reservations, taken: set<Endpoint>, after: Bindings, slot: string, revision: nat) {
    slot in after && Revised(slot, revision) !in rs && after[slot].at !in taken && !HasActive(rs, after[slot].at)
  }

  lemma RefusedUnlessFree(
    rs: Reservations, taken: set<Endpoint>, after: Bindings, slots: set<string>, revision: nat)
    requires slots <= after.Keys
    ensures Refused(rs, taken, after, slots, revision) <==> exists slot :: slot in slots && !Free(rs, taken, after, slot, revision)
  {
  }

  /** One more insert: what the rows held so far say about the next slot. */
  lemma HoldNext(
    rs: Reservations, taken: set<Endpoint>, after: Bindings, done: set<string>, slot: string, revision: nat)
    requires done <= after.Keys && slot in after && slot !in done && Distinct(after)
    requires forall s | s in done :: Free(rs, taken, after, s, revision)
    ensures var held := Hold(rs, after, done, revision);
      && Free(held, taken, after, slot, revision) == Free(rs, taken, after, slot, revision)
      && HasActive(held, after[slot].at) == HasActive(rs, after[slot].at)
      && Hold(rs, after, done + {slot}, revision) == held[Revised(slot, revision) := Reservation(after[slot].at, Held)]
  {
    HoldOneMore(rs, after, done, slot, revision);
    HoldReserves(rs, after, done, slot, revision);
  }

  /** Holds an endpoint for every slot that moved; the first refused insert ends the transaction. */
  method HoldChanged(
    rs: Reservations, taken: set<Endpoint>, before: Bindings, after: Bindings, revision: nat)
    returns (ok: bool, held: Reservations)
    requires Distinct(after)
    ensures ok <==> !Refused(rs, taken, after, Changed(before, after), revision)
    ensures ok ==> held == Hold(rs, after, Changed(before, after), revision)
  {
    hide Distinct, Hold, HasActive, Refused, Changed;
    ChangedAre(before, after);
    RefusedUnlessFree(rs, taken, after, Changed(before, after), revision);
    HoldNone(rs, after, revision);
    held := rs;
    var left := after.Keys;
    ghost var done: set<string> := {};
    while left != {}
      invariant left <= after.Keys && done + left * Changed(before, after) == Changed(before, after) && done !! left
      invariant held == Hold(rs, after, done, revision)
      invariant forall slot | slot in done :: Free(rs, taken, after, slot, revision)
      decreases |left|
    {
      var slot :| slot in left;
      left := left - {slot};
      if !(slot in before && before[slot].at.host == after[slot].at.host) {
        HoldNext(rs, taken, after, done, slot, revision);
        if Revised(slot, revision) in held || after[slot].at in taken || Reserved(held, after[slot].at) {
          return false, rs;
        }
        held := held[Revised(slot, revision) := Reservation(after[slot].at, Held)];
        done := done + {slot};
      }
    }
    ok := true;
  }

  lemma ChangedAre(before: Bindings, after: Bindings)
    ensures Changed(before, after) <= after.Keys
    ensures forall slot | slot in after ::
      slot in Changed(before, after) <==> !(slot in before && before[slot].at.host == after[slot].at.host)
  {
  }

  lemma HoldNone(rs: Reservations, after: Bindings, revision: nat)
    ensures Hold(rs, after, {}, revision) == rs
  {
  }

  lemma UnreservedAre(rs: Reservations, after: Bindings)
    ensures Unreserved(rs, after) <= after.Keys
    ensures forall slot | slot in after :: slot in Unreserved(rs, after) <==> !HasActive(rs, after[slot].at)
  {
    hide HasActive;
  }

  lemma NoNewIds(revision: nat)
    ensures NewIds({}, revision) == {}
  {
  }

  /** Holds an endpoint for every slot whose endpoint the instance has not reserved yet. */
  method HoldUnreserved(rs: Reservations, taken: set<Endpoint>, after: Bindings, revision: nat)
    returns (ok: bool, held: Reservations, ids: set<ReservationId>)
    requires Distinct(after)
    ensures ok <==> !Refused(rs, taken, after, Unreserved(rs, after), revision)
    ensures ok ==> held == Hold(rs, after, Unreserved(rs, after), revision)
    ensures ok ==> ids == NewIds(Unreserved(rs, after), revision)
  {
    hide Distinct, Hold, HasActive, Refused, Unreserved, NewIds;
    UnreservedAre(rs, after);
    RefusedUnlessFree(rs, taken, after, Unreserved(rs, after), revision);
    HoldNone(rs, after, revision);
    NoNewIds(revision);
    held, ids := rs, {};
    var left := after.Keys;
    ghost var done: set<string> := {};
    while left != {}
      invariant left <= after.Keys && done + left * Unreserved(rs, after) == Unreserved(rs, after) && done !! left
      invariant held == Hold(rs, after, done, revision) && ids == NewIds(done, revision)
      invariant forall slot | slot in done :: Free(rs, taken, after, slot, revision)
      decreases |left|
    {
      var slot :| slot in left;
      left := left - {slot};
      HoldNext(rs, taken, after, done, slot, revision);
      if Reserved(held, after[slot].at) { continue; }
      assert slot in Unreserved(rs, after);
      if Revised(slot, revision) in held || after[slot].at in taken { return false, rs, {}; }
      held := held[Revised(slot, revision) := Reservation(after[slot].at, Held)];
      NewIdsMore(done, slot, revision);
      ids := ids + {Revised(slot, revision)};
      done := done + {slot};
    }
    assert done == Unreserved(rs, after);
    ok := true;
  }

  /** Gives up the committed endpoint of every old port that moved. */
  method ReleaseEach(rs: Reservations, before: Bindings, after: Bindings) returns (released: Reservations)
    ensures released == ReleaseMoved(rs, before, after)
  {
    released := rs;
    var left := before.Keys;
    while left != {}
      invariant left <= before.Keys
      invariant released == ReleaseMoved(rs, map slot | slot in before.Keys - left :: before[slot], after)
      decreases |left|
    {
      var slot :| slot in left;
      ghost var seen := map s | s in before.Keys - left :: before[s];
      left := left - {slot};
      ghost var more := map s | s in before.Keys - left :: before[s];
      assert more == seen[slot := before[slot]];
      if slot !in after || after[slot].at.host != before[slot].at.host {
        released := map id | id in released ::
          if released[id].status == Committed && released[id].at == before[slot].at then Release(released[id])
          else released[id];
      }
      ReleaseOneMore(rs, seen, before[slot], slot, after);
    }
    assert before == map slot | slot in before.Keys - left :: before[slot];
  }

  lemma ReleaseOneMore(rs: Reservations, seen: Bindings, port: Port, slot: string, after: Bindings)
    requires slot !in seen
    ensures var now := ReleaseMoved(rs, seen, after);
      ReleaseMoved(rs, seen[slot := port], after) ==
        if slot !in after || after[slot].at.host != port.at.host then
          map id | id in now ::
            if now[id].status == Committed && now[id].at == port.at then Release(now[id]) else now[id]
        else now
  {
    var moved := slot !in after || after[slot].at.host != port.at.host;
    forall at ensures GivenUp(seen[slot := port], after, at) <==> GivenUp(seen, after, at) || (moved && at == port.at) {
      if GivenUp(seen, after, at) {
        var s :| s in seen && seen[s].at == at && !(s in after && after[s].at.host == seen[s].at.host);
        assert seen[slot := port][s] == seen[s];
      }
      if moved && at == port.at {
        assert seen[slot := port][slot].at == at;
      }
    }
  }

  // Storage -------------------------------------------------------------------------------------------

  method MarkEach(storage: map<string, Allocation>, initialization: Initialization)
    returns (marked: map<string, Allocation>)
    ensures marked == map slot | slot in storage :: storage[slot].(initialization := initialization)
  {
    marked := storage;
    var left := storage.Keys;
    while left != {}
      invariant left <= storage.Keys && marked.Keys == storage.Keys
      invariant forall slot | slot in storage ::
        marked[slot] == if slot in left then storage[slot] else storage[slot].(initialization := initialization)
      decreases |left|
    {
      var slot :| slot in left;
      marked := marked[slot := marked[slot].(initialization := initialization)];
      left := left - {slot};
    }
  }

  method RetainEach(storage: map<string, Allocation>, checks: seq<StorageCheck>)
    returns (retained: map<string, Allocation>)
    ensures retained == Retain(storage, checks)
  {
    retained := storage;
    for n := 0 to |checks|
      invariant retained == Retain(storage, checks[..n])
    {
      retained := RetainOne(retained, checks[n]);
      assert checks[..n + 1][..n] == checks[..n];
    }
    assert checks[..|checks|] == checks;
  }

  /** Every allocation must have exactly one check, and there must be no other. */
  method CountChecks(storage: map<string, Allocation>, checks: seq<StorageCheck>) returns (ok: bool)
    ensures ok <==> ChecksAll(storage, checks)
  {
    if |checks| != |storage| { return false; }
    var left := storage.Keys;
    while left != {}
      invariant left <= storage.Keys
      invariant forall slot | slot in storage && slot !in left ::
        |set i | 0 <= i < |checks| && checks[i].slot == slot| == 1
      decreases |left|
    {
      var slot :| slot in left;
      if |set i | 0 <= i < |checks| && checks[i].slot == slot| != 1 { return false; }
      left := left - {slot};
    }
    ok := true;
  }

  // A new instance ------------------------------------------------------------------------------------

  lemma OnePortMore(ports: Proposal, n: nat, bindings: Bindings, used: set<Endpoint>, taken: set<Endpoint>)
    requires n < |ports| && PortsInsertable(ports[..n], taken) && Collected(ports, n, bindings, used)
    ensures PortsInsertable(ports[..n + 1], taken) <==>
      ports[n].0 !in bindings && ports[n].1.at !in taken && ports[n].1.at !in used
  {
    hide ToMap;
    assert ports[..n + 1] == ports[..n] + [ports[n]];
    if PortsInsertable(ports[..n + 1], taken) {
      forall i | 0 <= i < n ensures ports[i].0 != ports[n].0 && ports[i].1.at != ports[n].1.at {
        assert ports[..n + 1][i] == ports[i] && ports[..n + 1][n] == ports[n];
      }
      assert ports[..n + 1][n].1.at !in taken;
    }
  }

  lemma FewerPorts(ports: Proposal, n: nat, taken: set<Endpoint>)
    requires n <= |ports| && PortsInsertable(ports, taken)
    ensures PortsInsertable(ports[..n], taken)
  {
  }

  /** Inserts the bindings and reservations of a new instance, one port at a time. */
  method InsertPorts(ports: Proposal, taken: set<Endpoint>) returns (ok: bool, bindings: Bindings, rs: Reservations)
    ensures ok <==> PortsInsertable(ports, taken)
    ensures ok ==> bindings == ToMap(ports) && rs == FirstReservations(bindings)
  {
    hide FirstReservations, Collected, PortsInsertable, ToMap;
    bindings, rs := map[], map[];
    NoReservations();
    NoneCollected(ports);
    NoPorts(taken);
    var used: set<Endpoint> := {};
    for n := 0 to |ports|
      invariant PortsInsertable(ports[..n], taken) && Collected(ports, n, bindings, used)
      invariant rs == FirstReservations(bindings)
    {
      var (slot, port) := ports[n];
      assert ports[n] == (slot, port);
      OnePortMore(ports, n, bindings, used, taken);
      if PortsInsertable(ports, taken) { FewerPorts(ports, n + 1, taken); }
      if slot in bindings { return false, map[], map[]; }
      if port.at in taken || port.at in used { return false, map[], map[]; }
      FirstOneMore(bindings, slot, port);
      OneCollected(ports, n, bindings, used);
      bindings := bindings[slot := port];
      rs := rs[Initial(slot) := Reservation(port.at, Committed)];
      used := used + {port.at};
    }
    assert ports[..|ports|] == ports;
    AllCollected(ports, bindings, used);
    ok := true;
  }

  lemma NoPorts(taken: set<Endpoint>)
    ensures PortsInsertable([], taken)
  {
  }

  lemma NoReservations()
    ensures FirstReservations(map[]) == map[]
  {
  }

  lemma FirstOneMore(bindings: Bindings, slot: string, port: Port)
    requires slot !in bindings
    ensures FirstReservations(bindings[slot := port])
      == FirstReservations(bindings)[Initial(slot) := Reservation(port.at, Committed)]
  {
    assert InitialIds(bindings[slot := port]) == InitialIds(bindings) + {Initial(slot)};
  }

  /** What the first n storage rows hold: the rows themselves, and their resources. */
  ghost predicate Stored(
    how: Method, storage: seq<StorageRequest>, n: nat, rows: map<string, Allocation>, resources: set<string>)
    requires n <= |storage|
  {
    && rows == Allocations(how, storage[..n])
    && (forall slot :: slot in rows <==> exists i :: 0 <= i < n && storage[i].slot == slot)
    && (forall name :: name in resources <==> exists i :: 0 <= i < n && storage[i].identity == name)
  }

  lemma NothingStored(how: Method, storage: seq<StorageRequest>, used: set<string>)
    ensures Stored(how, storage, 0, map[], {}) && StorageInsertable([], used)
  {
  }

  lemma OneStored(
    how: Method, storage: seq<StorageRequest>, n: nat, rows: map<string, Allocation>, resources: set<string>)
    requires n < |storage| && Stored(how, storage, n, rows, resources)
    ensures Stored(how, storage, n + 1, rows[storage[n].slot := Planned(how, storage[n])], resources + {storage[n].identity})
  {
    assert storage[..n + 1][..n] == storage[..n];
  }

  lemma OneRowMore(
    how: Method, storage: seq<StorageRequest>, n: nat, rows: map<string, Allocation>, resources: set<string>,
    used: set<string>)
    requires n < |storage| && StorageInsertable(storage[..n], used) && Stored(how, storage, n, rows, resources)
    ensures StorageInsertable(storage[..n + 1], used) <==>
      storage[n].slot !in rows && storage[n].identity !in resources && storage[n].identity !in used
  {
    hide Allocations;
    assert storage[..n + 1] == storage[..n] + [storage[n]];
    if StorageInsertable(storage[..n + 1], used) {
      forall i | 0 <= i < n ensures storage[i].slot != storage[n].slot && storage[i].identity != storage[n].identity {
        assert storage[..n + 1][i] == storage[i] && storage[..n + 1][n] == storage[n];
      }
      assert storage[..n + 1][n].identity !in used;
    }
  }

  lemma FewerRows(storage: seq<StorageRequest>, n: nat, used: set<string>)
    requires n <= |storage| && StorageInsertable(storage, used)
    ensures StorageInsertable(storage[..n], used)
  {
  }

  lemma AllStored(how: Method, storage: seq<StorageRequest>, rows: map<string, Allocation>, resources: set<string>)
    requires Stored(how, storage, |storage|, rows, resources)
    ensures rows == Allocations(how, storage)
  {
    assert storage[..|storage|] == storage;
  }

  /** Inserts the storage rows of a new instance, one at a time. */
  method InsertStorage(how: Method, storage: seq<StorageRequest>, used: set<string>)
    returns (ok: bool, rows: map<string, Allocation>)
    ensures ok <==> StorageInsertable(storage, used)
    ensures ok ==> rows == Allocations(how, storage)
  {
    hide Stored, StorageInsertable, Allocations;
    rows := map[];
    var resources: set<string> := {};
    NothingStored(how, storage, used);
    for n := 0 to |storage|
      invariant StorageInsertable(storage[..n], used) && Stored(how, storage, n, rows, resources)
    {
      var request := storage[n];
      OneRowMore(how, storage, n, rows, resources, used);
      if StorageInsertable(storage, used) { FewerRows(storage, n + 1, used); }
      if request.slot in rows || request.identity in resources || request.identity in used { return false, map[]; }
      OneStored(how, storage, n, rows, resources);
      resources := resources + {request.identity};
      rows := rows[request.slot := Planned(how, request)];
    }
    assert storage[..|storage|] == storage;
    AllStored(how, storage, rows, resources);
    ok := true;
  }

  // Receipts ------------------------------------------------------------------------------------------

  /** Whether and where a plan of the scope was confirmed. */
  method SearchPlan(receipts: map<(string, string), Receipt>, scope: string, plan: string)
    returns (found: Option<(string, string)>)
    ensures found.Some? ==> found.value in receipts && HasPlan(receipts[found.value], scope, plan)
    ensures found.None? ==> forall key | key in receipts :: !HasPlan(receipts[key], scope, plan)
  {
    var left := receipts.Keys;
    while left != {}
      invariant left <= receipts.Keys
      invariant forall key | key in receipts && key !in left :: !HasPlan(receipts[key], scope, plan)
      decreases |left|
    {
      var key :| key in left;
      if HasPlan(receipts[key], scope, plan) { return Some(key); }
      left := left - {key};
    }
    found := None;
  }
}
