/** Confirming an unconfirmed plan exactly once, although plans live only in this process and expire. */
module CreatePlansObject {
  import opened Wrappers
  import opened LedgerTypes
  import opened PortEdits
  import opened InstanceSteps
  import opened LedgerStore
  import opened StoreProofs
  import opened LedgerRuns
  import opened LedgerTheorems
  import opened LedgerObject
  import LedgerLoops

  const IDLE_SECONDS := 30 * 60

  /** The parts of a plan that a confirmation reads. */
  datatype Plan = Plan(
    scope: string, revision: nat, how: Method, containers: map<string, u16>, storageSlots: set<string>, lastUsed: nat)

  /** What a fresh preview shows: the first concern, if any, and the ports. */
  datatype View = View(concern: Option<string>, ports: map<string, u16>)

  datatype Confirmation = Confirmation(
    plan: string, revision: nat, scope: string, request: string, target: string, instance: string, operation: string,
    ports: map<string, u16>, storage: seq<StorageRequest>)

  /** Facts about the runtime target and the template, read when the plan is confirmed. */
  datatype Surroundings = Surroundings(target: Option<string>, targetMatches: bool, templateKnown: bool)

  predicate Answers(receipt: Receipt, request: Confirmation, hash: string) {
    receipt.plan == Some(request.plan) && receipt.confirmed == request.revision && receipt.hash == hash
  }

  ghost predicate PlanConfirmed(db: Db, request: Confirmation) {
    exists key :: key in db.receipts && HasPlan(db.receipts[key], request.scope, request.plan)
  }

  /** The answer that stored receipts alone give, before any plan is looked at. */
  ghost function Prior(db: Db, request: Confirmation, hash: string): Option<Result<Receipt, string>> {
    if (request.scope, request.request) in db.receipts then
      var previous := db.receipts[(request.scope, request.request)];
      Some(if Answers(previous, request, hash) then Ok(previous) else Err("REQUEST_ALREADY_USED"))
    else if PlanConfirmed(db, request) then
      var key :| key in db.receipts && HasPlan(db.receipts[key], request.scope, request.plan);
      var previous := db.receipts[key];
      Some(if Answers(previous, request, hash) then Ok(previous) else Err("PLAN_ALREADY_COMMITTED"))
    else None
  }

  /**
   * A confirmation answered once is answered the same way in every later state of the store, under its
   * own request or any unused one: expiry and restarts of this process do not enter into it.
   */
  lemma RepeatedConfirmation(
    states: seq<Db>, txns: seq<Txn>, j: nat, k: nat, key: (string, string), again: Confirmation, hash: string)
    requires Run(states, txns) && j <= k < |states| && key in states[j].receipts
    requires states[j].receipts[key].scope == again.scope && Answers(states[j].receipts[key], again, hash)
    requires again.request == states[j].receipts[key].request || (again.scope, again.request) !in states[k].receipts
    ensures Prior(states[k], again, hash) == Some(Ok(states[j].receipts[key]))
  {
    hide Run, Later, CellsOk, PortsApart, Owned;
    RunLater(states, txns, j, k);
    RunKeeps(states, txns, k);
    OnlyReceiptOfPlan(states[k], key, again);
  }

  lemma OnlyReceiptOfPlan(db: Db, key: (string, string), again: Confirmation)
    requires ReceiptsOk(db) && key in db.receipts && HasPlan(db.receipts[key], again.scope, again.plan)
    ensures key == (db.receipts[key].scope, db.receipts[key].request) && PlanConfirmed(db, again)
    ensures forall other | other in db.receipts && HasPlan(db.receipts[other], again.scope, again.plan) :: other == key
  {
    assert ReceiptRow(db, key);
    forall other | other in db.receipts && HasPlan(db.receipts[other], again.scope, again.plan) ensures other == key {
      assert other != key ==> !SamePlanRow(db.receipts[other], db.receipts[key]);
    }
  }

  predicate Hex32(text: string) {
    |text| == 32 && forall i | 0 <= i < 32 :: IsDigit(text[i]) || 'a' <= text[i] <= 'f' || 'A' <= text[i] <= 'F'
  }

  lemma HexIsNamed(text: string)
    ensures Hex32(text) ==> text != ""
  {
  }

  /** The allocations offered are exactly one complete one for each slot of the template. */
  predicate StorageFits(slots: set<string>, storage: seq<StorageRequest>) {
    && (set i | 0 <= i < |storage| :: storage[i].slot) == slots
    && (forall i, j | 0 <= i < j < |storage| :: storage[i].slot != storage[j].slot)
    && forall i | 0 <= i < |storage| :: storage[i].identity != "" && storage[i].evidence != ""
  }

  function StoreError(conflict: Conflict): string {
    match conflict
    case Duplicate => "RESOURCE_CONFLICT"
    case StaleRevision => "PLAN_STALE"
    case Missing => "RESOURCE_MISSING"
    case InvalidLifecycle => "SOURCE_UNAVAILABLE"
    case UnresolvedOperation => "SOURCE_UNAVAILABLE"
    case InvalidInput => "COMMIT_INVALID"
    case Backend => "STORE_UNAVAILABLE"
  }

  /** Each slot of the template gets its confirmed host port on the loopback address. */
  ghost predicate OnLoopback(ports: Proposal, containers: map<string, u16>, hosts: map<string, u16>) {
    forall i | 0 <= i < |ports| ::
      && ports[i].0 in containers && ports[i].0 in hosts
      && ports[i].1 == Port(Endpoint(LOOPBACK, hosts[ports[i].0]), containers[ports[i].0])
  }

  /** These slots and no others, each once. */
  ghost predicate EachOnce(ports: Proposal, slots: set<string>) {
    && (forall i | 0 <= i < |ports| :: ports[i].0 in slots)
    && (forall slot | slot in slots :: exists i :: 0 <= i < |ports| && ports[i].0 == slot)
    && (forall i, j | 0 <= i < j < |ports| :: ports[i].0 != ports[j].0)
  }

  lemma OnceMore(ports: Proposal, slots: set<string>, slot: string, port: Port)
    requires EachOnce(ports, slots) && slot !in slots
    ensures EachOnce(ports + [(slot, port)], slots + {slot})
  {
    hide ToMap;
    var more := ports + [(slot, port)];
    forall s | s in slots + {slot} ensures exists i :: 0 <= i < |more| && more[i].0 == s {
      if s == slot {
        assert more[|ports|].0 == s;
      } else {
        var i :| 0 <= i < |ports| && ports[i].0 == s;
        assert more[i].0 == s;
      }
    }
  }

  lemma LoopbackMore(ports: Proposal, containers: map<string, u16>, hosts: map<string, u16>, slot: string)
    requires OnLoopback(ports, containers, hosts) && slot in containers && slot in hosts
    ensures OnLoopback(ports + [(slot, Port(Endpoint(LOOPBACK, hosts[slot]), containers[slot]))], containers, hosts)
  {
  }

  method AssignPorts(containers: map<string, u16>, hosts: map<string, u16>) returns (ports: Option<Proposal>)
    ensures ports.Some? <==> containers.Keys <= hosts.Keys
    ensures ports.Some? ==> OnLoopback(ports.value, containers, hosts) && EachOnce(ports.value, containers.Keys)
  {
    hide EachOnce, OnLoopback;
    var built: Proposal := [];
    var left := containers.Keys;
    NoSlots(containers, hosts);
    assert containers.Keys - left == {};
    while left != {}
      invariant left <= containers.Keys && containers.Keys - left <= hosts.Keys
      invariant OnLoopback(built, containers, hosts) && EachOnce(built, containers.Keys - left)
      decreases |left|
    {
      var slot :| slot in left;
      if slot !in hosts { return None; }
      var port := Port(Endpoint(LOOPBACK, hosts[slot]), containers[slot]);
      OnceMore(built, containers.Keys - left, slot, port);
      LoopbackMore(built, containers, hosts, slot);
      assert containers.Keys - (left - {slot}) == containers.Keys - left + {slot};
      built := built + [(slot, port)];
      left := left - {slot};
    }
    assert containers.Keys - {} == containers.Keys;
    ports := Some(built);
  }

  lemma NoSlots(containers: map<string, u16>, hosts: map<string, u16>)
    ensures EachOnce([], {}) && OnLoopback([], containers, hosts)
  {
  }

  // When a confirmation succeeds ------------------------------------------------------------------------

  /** The bindings a confirmed plan asks for. */
  function Bound(containers: map<string, u16>, hosts: map<string, u16>): Bindings
    requires containers.Keys <= hosts.Keys
  {
    map slot | slot in containers :: Port(Endpoint(LOOPBACK, hosts[slot]), containers[slot])
  }

  lemma AssignedAreBound(ports: Proposal, containers: map<string, u16>, hosts: map<string, u16>)
    requires OnLoopback(ports, containers, hosts) && EachOnce(ports, containers.Keys) && containers.Keys <= hosts.Keys
    ensures ToMap(ports) == Bound(containers, hosts)
  {
    ToMapIs(ports);
    var bound := Bound(containers, hosts);
    assert ToMap(ports).Keys == bound.Keys;
    forall slot | slot in bound ensures ToMap(ports)[slot] == bound[slot] {
      var i :| 0 <= i < |ports| && ports[i].0 == slot;
    }
  }

  /** The plan is as it was shown, and the confirmation is complete. */
  ghost predicate Buildable(plans: map<string, Plan>, request: Confirmation, view: Plan -> View) {
    && request.plan in plans
    && var plan := plans[request.plan];
    && plan.scope == request.scope && plan.revision == request.revision && view(plan) == View(None, request.ports)
    && request.target != "" && request.request != "" && request.operation != "" && Hex32(request.instance)
    && StorageFits(plan.storageSlots, request.storage) && plan.containers.Keys <= request.ports.Keys
  }

  /** Nothing in the store has the identities, the endpoints or the resources this plan needs. */
  ghost predicate Unclaimed(db: Db, request: Confirmation, containers: map<string, u16>)
    requires containers.Keys <= request.ports.Keys
  {
    && request.instance !in db.cells && request.operation !in db.owner
    && (forall s | s in containers ::
          Endpoint(LOOPBACK, request.ports[s]) !in Taken(db, request.scope, request.instance))
    && (forall s, t | s in containers && t in containers && s != t :: request.ports[s] != request.ports[t])
    && StorageInsertable(request.storage, Used(db))
  }

  predicate Identified(request: Confirmation) {
    request.plan != "" && request.scope != "" && request.revision > 0
  }

  /** Exactly what a confirmation that was never answered needs in order to succeed. */
  ghost predicate Confirmable(
    db: Db, plans: map<string, Plan>, request: Confirmation, now: nat, view: Plan -> View, around: Surroundings)
  {
    && Buildable(plans, request, view) && now < plans[request.plan].lastUsed + IDLE_SECONDS
    && Identified(request)
    && around == Surroundings(Some(request.target), true, true)
    && Unclaimed(db, request, plans[request.plan].containers)
  }

  lemma PortsInsertableIff(ports: Proposal, containers: map<string, u16>, hosts: map<string, u16>, taken: set<Endpoint>)
    requires OnLoopback(ports, containers, hosts) && EachOnce(ports, containers.Keys) && containers.Keys <= hosts.Keys
    ensures PortsInsertable(ports, taken) <==>
      && (forall s | s in containers :: Endpoint(LOOPBACK, hosts[s]) !in taken)
      && (forall s, t | s in containers && t in containers && s != t :: hosts[s] != hosts[t])
  {
    if PortsInsertable(ports, taken) {
      forall s | s in containers ensures Endpoint(LOOPBACK, hosts[s]) !in taken {
        var i :| 0 <= i < |ports| && ports[i].0 == s;
      }
      forall s, t | s in containers && t in containers && s != t ensures hosts[s] != hosts[t] {
        var i :| 0 <= i < |ports| && ports[i].0 == s;
        var j :| 0 <= j < |ports| && ports[j].0 == t;
        assert i < j || j < i;
      }
    }
  }

  /** The rows of a new instance and its receipt are everything a first confirmation adds. */
  ghost predicate Created(before: Db, after: Db, request: Confirmation, plan: Plan, receipt: Receipt)
    requires plan.containers.Keys <= request.ports.Keys
  {
    && request.instance in after.cells
    && after == WithReceipt(before.(cells := before.cells[request.instance := after.cells[request.instance]]), receipt)
    && receipt.instance == request.instance && receipt.operation == request.operation
    && var c := after.cells[request.instance];
    && c.specs == map[1 := Bound(plan.containers, request.ports)] && c.applied.None?
    && c.reservations == FirstReservations(c.specs[1])
    && c.ops == map[request.operation := Operation(Create, Accepted, "accepted", 1, 1, None, Some(1), map[])]
    && c.scope == request.scope && c.target == request.target && c.lifecycle == Managed && c.revision == 1
    && c.pending == map[] && AsPlanned(c.storage, plan.how, request.storage)
  }

  /** One allocation for each one offered: assigned, not there yet, and with the identity and evidence offered. */
  ghost predicate AsPlanned(rows: map<string, Allocation>, how: Method, offered: seq<StorageRequest>) {
    && (forall slot | slot in rows :: exists i :: 0 <= i < |offered| && offered[i].slot == slot)
    && forall i | 0 <= i < |offered| ::
         && offered[i].slot in rows
         && rows[offered[i].slot] == Allocation(
              how, offered[i].identity, offered[i].evidence, Assigned, NotMaterialized, NotAttempted)
  }

  lemma {:induction false} AllocatedAsPlanned(how: Method, offered: seq<StorageRequest>)
    requires forall i, j | 0 <= i < j < |offered| :: offered[i].slot != offered[j].slot
    ensures AsPlanned(Allocations(how, offered), how, offered)
  {
    if offered != [] {
      var rest, last := offered[..|offered| - 1], offered[|offered| - 1];
      AllocatedAsPlanned(how, rest);
      forall slot | slot in Allocations(how, offered)
        ensures exists i :: 0 <= i < |offered| && offered[i].slot == slot
      {
        if slot == last.slot {
          assert offered[|offered| - 1].slot == slot;
        } else {
          var i :| 0 <= i < |rest| && rest[i].slot == slot;
          assert offered[i].slot == slot;
        }
      }
      forall i | 0 <= i < |offered|
        ensures offered[i].slot in Allocations(how, offered)
        ensures Allocations(how, offered)[offered[i].slot] == Allocation(
          how, offered[i].identity, offered[i].evidence, Assigned, NotMaterialized, NotAttempted)
      {
        if i < |rest| { assert rest[i] == offered[i] && offered[i].slot != last.slot; }
      }
    }
  }

  lemma DistinctSlots(offered: seq<StorageRequest>, used: set<string>)
    requires StorageInsertable(offered, used)
    ensures forall i, j | 0 <= i < j < |offered| :: offered[i].slot != offered[j].slot
  {
  }

  /** Whether the store takes a plan that was built from a complete confirmation, and what it then holds. */
  lemma StoreTakes(db: Db, request: Confirmation, plan: Plan, p: PlanCommit)
    requires ValidPlanCommit(p) && p.clone.None? && p.targetMatches && p.templateKnown && FirstRequest(db, p.receipt)
    requires p.record.id == request.instance && p.record.scope == request.scope && p.record.storage == request.storage
    requires p.intent.id == request.operation && p.intent.phase == "accepted"
    requires p.record.how == plan.how && p.record.target == request.target
    requires plan.containers.Keys <= request.ports.Keys && EachOnce(p.record.ports, plan.containers.Keys)
    requires OnLoopback(p.record.ports, plan.containers, request.ports)
    ensures LedgerStore.CommitPlan(db, p).Ok? <==> Unclaimed(db, request, plan.containers)
    ensures LedgerStore.CommitPlan(db, p).Err? ==> LedgerStore.CommitPlan(db, p) == Err(Duplicate)
    ensures LedgerStore.CommitPlan(db, p).Ok? ==>
      Created(db, LedgerStore.CommitPlan(db, p).value.0, request, plan, p.receipt)
  {
    hide FindReceipt, FirstRequest, Taken, Used, ToMap, OnLoopback, EachOnce, PortsInsertable, StorageInsertable, Bound,
      FirstReservations, AsPlanned, Allocations;
    NoReceiptFound(db, p.receipt);
    if StorageInsertable(p.record.storage, Used(db)) {
      DistinctSlots(p.record.storage, Used(db));
      AllocatedAsPlanned(p.record.how, p.record.storage);
    }
    PortsInsertableIff(p.record.ports, plan.containers, request.ports, Taken(db, p.record.scope, p.record.id));
    AssignedAreBound(p.record.ports, plan.containers, request.ports);
  }

  class CreatePlans {
    var plans: map<string, Plan>

    constructor ()
      ensures plans == map[]
    {
      plans := map[];
    }

    /** Forgets plans nobody has used for half an hour. */
    method Expire(now: nat)
      modifies this
      ensures plans.Keys <= old(plans).Keys && forall id | id in plans :: plans[id] == old(plans)[id]
      ensures forall id | id in old(plans) :: id in plans <==> now < old(plans)[id].lastUsed + IDLE_SECONDS
    {
      plans := map id | id in plans && now < plans[id].lastUsed + IDLE_SECONDS :: plans[id];
    }

    /** Looks for an earlier answer in the store. */
    method Answered(ledger: Ledger, request: Confirmation, hash: string) returns (prior: Option<Result<Receipt, string>>)
      requires ledger.Valid()
      ensures prior == Prior(ledger.State(), request, hash)
    {
      hide CellsOk, PortsApart, Owned;
      var key := (request.scope, request.request);
      if key in ledger.receipts {
        var previous := ledger.receipts[key];
        return Some(if Answers(previous, request, hash) then Ok(previous) else Err("REQUEST_ALREADY_USED"));
      }
      var found := LedgerLoops.SearchPlan(ledger.receipts, request.scope, request.plan);
      if found.None? { return None; }
      OnlyReceiptOfPlan(ledger.State(), found.value, request);
      var previous := ledger.receipts[found.value];
      prior := Some(if Answers(previous, request, hash) then Ok(previous) else Err("PLAN_ALREADY_COMMITTED"));
    }

    /** Checks the plan and builds its instance; the confirmed ports must be those of a fresh preview. */
    method Build(request: Confirmation, view: Plan -> View) returns (r: Result<InstanceRecord, string>)
      ensures r.Ok? <==> Buildable(plans, request, view)
      ensures r.Err? ==>
        r.error ==
          if request.plan !in plans || plans[request.plan].scope != request.scope then "PLAN_NOT_FOUND"
          else if plans[request.plan].revision != request.revision then "PLAN_STALE"
          else if view(plans[request.plan]).concern.Some? then view(plans[request.plan]).concern.value
          else if view(plans[request.plan]).ports != request.ports then "PLAN_RECONFIRM"
          else if request.target == "" || request.request == "" || request.operation == "" || !Hex32(request.instance)
          then "COMMIT_INVALID"
          else if !StorageFits(plans[request.plan].storageSlots, request.storage) then "STORAGE_ALLOCATION_INVALID"
          else "PORT_CHECK_UNAVAILABLE"
      ensures r.Ok? ==>
        && r.value.id == request.instance && r.value.scope == request.scope && r.value.target == request.target
        && r.value.cloneSource.None? && r.value.storage == request.storage && r.value.how == plans[request.plan].how
        && OnLoopback(r.value.ports, plans[request.plan].containers, request.ports)
        && EachOnce(r.value.ports, plans[request.plan].containers.Keys)
    {
      if request.plan !in plans || plans[request.plan].scope != request.scope { return Err("PLAN_NOT_FOUND"); }
      var plan := plans[request.plan];
      if plan.revision != request.revision { return Err("PLAN_STALE"); }
      var shown := view(plan);
      if shown.concern.Some? { return Err(shown.concern.value); }
      if request.ports != shown.ports { return Err("PLAN_RECONFIRM"); }
      if request.target == "" || request.request == "" || request.operation == "" || !Hex32(request.instance) {
        return Err("COMMIT_INVALID");
      }
      if !StorageFits(plan.storageSlots, request.storage) { return Err("STORAGE_ALLOCATION_INVALID"); }
      var ports := AssignPorts(plan.containers, shown.ports);
      if ports.None? { return Err("PORT_CHECK_UNAVAILABLE"); }
      r := Ok(InstanceRecord(
        request.instance, request.scope, request.target, None, ports.value, plan.how, request.storage));
    }

    /**
     * Confirms a ready plan. Stored receipts answer first; only a plan known here, with the revision and
     * ports just shown, can add anything to the store, and it does exactly when nothing it needs is claimed.
     */
    method CommitPlan(ledger: Ledger, request: Confirmation, now: nat, view: Plan -> View,
                      around: Surroundings, hashes: (string, nat) -> string)
      returns (r: Result<Receipt, string>)
      requires ledger.Valid() && forall p, n :: Hex64(hashes(p, n))
      modifies this, ledger
      ensures ledger.Valid()
      ensures Prior(old(ledger.State()), request, hashes(request.plan, request.revision)).Some? ==>
        && r == Prior(old(ledger.State()), request, hashes(request.plan, request.revision)).value
        && ledger.State() == old(ledger.State())
      ensures Prior(old(ledger.State()), request, hashes(request.plan, request.revision)).None? ==>
        && (r.Ok? <==> Confirmable(old(ledger.State()), old(plans), request, now, view, around))
        && (r.Ok? ==> request.plan !in plans)
        && (r.Ok? ==> Created(old(ledger.State()), ledger.State(), request, old(plans)[request.plan], r.value))
        && (r.Err? ==> ledger.State() == old(ledger.State()))
        && (request.plan !in old(plans) || now >= old(plans)[request.plan].lastUsed + IDLE_SECONDS ==>
              r == Err("PLAN_NOT_FOUND"))
        && (Buildable(old(plans), request, view) && now < old(plans)[request.plan].lastUsed + IDLE_SECONDS ==>
              Identified(request) && around == Surroundings(Some(request.target), true, true) ==>
              r.Ok? || r == Err("RESOURCE_CONFLICT"))
      ensures r.Ok? ==>
        && Answers(r.value, request, hashes(request.plan, request.revision)) && r.value.scope == request.scope
        && (r.value.scope, r.value.request) in ledger.receipts
        && ledger.receipts[(r.value.scope, r.value.request)] == r.value
    {
      hide DbOk, Hex64, StorageFits, Hex32, Unclaimed, Created, OnLoopback, EachOnce;
      Expire(now);
      var hash := hashes(request.plan, request.revision);
      ghost var start := ledger.State();
      var prior := Answered(ledger, request, hash);
      if prior.Some? {
        PriorIsStored(start, request, hash);
        return prior.value;
      }
      var built := Build(request, view);
      if built.Err? { return Err(built.error); }
      HexIsNamed(request.instance);
      if around.target != Some(request.target) { return Err("RUNTIME_TARGET_MISMATCH"); }
      r := Store(ledger, request, plans[request.plan], built.value, hash, around);
      if r.Ok? { plans := plans - {request.plan}; }
    }

    /** The store transaction of a plan that was built. */
    method Store(ledger: Ledger, request: Confirmation, ghost plan: Plan, record: InstanceRecord, hash: string,
                 around: Surroundings)
      returns (r: Result<Receipt, string>)
      requires ledger.Valid() && Hex64(hash) && Prior(ledger.State(), request, hash).None?
      requires record.id == request.instance && record.scope == request.scope && record.target == request.target
      requires record.cloneSource.None? && record.storage == request.storage && request.instance != ""
      requires record.how == plan.how
      requires request.operation != "" && request.request != ""
      requires plan.containers.Keys <= request.ports.Keys && EachOnce(record.ports, plan.containers.Keys)
      requires OnLoopback(record.ports, plan.containers, request.ports)
      modifies ledger
      ensures ledger.Valid()
      ensures r.Ok? <==>
        && request.plan != "" && request.scope != "" && request.revision > 0 && around.targetMatches && around.templateKnown
        && Unclaimed(old(ledger.State()), request, plan.containers)
      ensures r.Err? ==> ledger.State() == old(ledger.State())
      ensures Identified(request) && around.targetMatches && around.templateKnown ==>
        (r.Err? ==> r == Err("RESOURCE_CONFLICT"))
      ensures r.Ok? ==> Created(old(ledger.State()), ledger.State(), request, plan, r.value)
      ensures r.Ok? ==>
        && Answers(r.value, request, hash) && r.value.scope == request.scope
        && (r.value.scope, r.value.request) in ledger.receipts
        && ledger.receipts[(r.value.scope, r.value.request)] == r.value
    {
      hide DbOk, Hex64, Unclaimed, EachOnce, LedgerStore.CommitPlan, FirstRequest, ToMap, FirstReservations, Created;
      ghost var start := ledger.State();
      var intent := Intent(request.operation, request.instance, Create, "accepted", 1, None, Some(1));
      var receipt := Receipt(
        request.scope, request.request, Some(request.plan), request.revision, hash, request.instance, request.operation);
      var commit := PlanCommit(record, intent, receipt, TargetGuard(request.target, request.scope), None,
                               around.targetMatches, around.templateKnown);
      NotAnsweredIsFirst(start, request, receipt, hash);
      StoreTakesIff(start, request, plan, commit);
      var result := ledger.CommitPlan(commit);
      if result.Err? { return Err(StoreError(result.error)); }
      CommitStores(start, commit);
      r := Ok(result.value);
    }
  }

  /** The same for a plan that may still lack a valid identity, target or template. */
  lemma StoreTakesIff(db: Db, request: Confirmation, plan: Plan, p: PlanCommit)
    requires p.clone.None? && FirstRequest(db, p.receipt) && p.record.cloneSource.None?
    requires p.record.id == request.instance && p.record.scope == request.scope && p.record.storage == request.storage
    requires p.record.how == plan.how && p.record.target == request.target
    requires p.intent == Intent(request.operation, request.instance, Create, "accepted", 1, None, Some(1))
    requires p.receipt == Receipt(request.scope, request.request, Some(request.plan), request.revision, p.receipt.hash,
                                  request.instance, request.operation)
    requires p.target == TargetGuard(p.record.target, p.record.scope) && Hex64(p.receipt.hash)
    requires request.instance != "" && request.operation != "" && request.request != ""
    requires plan.containers.Keys <= request.ports.Keys && EachOnce(p.record.ports, plan.containers.Keys)
    requires OnLoopback(p.record.ports, plan.containers, request.ports)
    ensures LedgerStore.CommitPlan(db, p).Ok? <==>
      && request.plan != "" && request.scope != "" && request.revision > 0 && p.targetMatches && p.templateKnown
      && Unclaimed(db, request, plan.containers)
    ensures ValidPlanCommit(p) && p.targetMatches && p.templateKnown && !Unclaimed(db, request, plan.containers) ==>
      LedgerStore.CommitPlan(db, p) == Err(Duplicate)
    ensures ValidPlanCommit(p) <==> request.plan != "" && request.scope != "" && request.revision > 0
    ensures LedgerStore.CommitPlan(db, p).Ok? ==>
      Created(db, LedgerStore.CommitPlan(db, p).value.0, request, plan, p.receipt)
  {
    hide Hex64, FindReceipt, FirstRequest, Unclaimed, Created, OnLoopback, EachOnce, Insertable, NewCell, Taken, Used;
    NoReceiptFound(db, p.receipt);
    if ValidPlanCommit(p) && p.targetMatches && p.templateKnown { StoreTakes(db, request, plan, p); }
  }

  lemma PriorIsStored(db: Db, request: Confirmation, hash: string)
    requires DbOk(db)
    ensures Prior(db, request, hash).Some? && Prior(db, request, hash).value.Ok? ==>
      var r := Prior(db, request, hash).value.value;
      && Answers(r, request, hash) && r.scope == request.scope
      && (r.scope, r.request) in db.receipts && db.receipts[(r.scope, r.request)] == r
  {
    hide CellsOk, PortsApart, Owned;
    forall key | key in db.receipts ensures ReceiptRow(db, key) {
    }
  }

  lemma NotAnsweredIsFirst(db: Db, request: Confirmation, receipt: Receipt, hash: string)
    requires Prior(db, request, hash).None?
    requires receipt.scope == request.scope && receipt.request == request.request && receipt.plan == Some(request.plan)
    ensures FirstRequest(db, receipt)
  {
  }

  /** A request or a plan that already served for something else is refused, whatever else may be said of it. */
  lemma ReuseIsRefused(db: Db, request: Confirmation, hash: string)
    requires DbOk(db) && Prior(db, request, hash).Some?
    ensures var prior := Prior(db, request, hash).value;
      && ((request.scope, request.request) in db.receipts
            && !Answers(db.receipts[(request.scope, request.request)], request, hash) ==>
            prior == Err("REQUEST_ALREADY_USED"))
      && ((request.scope, request.request) !in db.receipts && prior.Err? ==> prior == Err("PLAN_ALREADY_COMMITTED"))
      && (prior.Ok? ==> Answers(prior.value, request, hash) && prior.value.scope == request.scope)
  {
    hide CellsOk, PortsApart, Owned, ResourcesApart;
    PriorIsStored(db, request, hash);
  }
}
