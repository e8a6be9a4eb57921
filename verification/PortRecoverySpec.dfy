/** Recovering an undecided creation or port edit: what may be decided, and which steps the journal takes. */
module PortRecoverySpec {
  import opened Wrappers
  import opened LedgerTypes
  import opened PortEdits
  import opened CellInvariant
  import opened PortEditProofs
  import opened InstanceSteps
  import opened LedgerStore
  import opened StoreProofs
  import Journal

  // What is asked for and what is found -----------------------------------------------------------------

  datatype Action = Reconcile | Again | Restore | Propose | Other(candidate: nat, ports: Proposal)

  datatype Trouble = PortTaken | InDoubt | Failing

  /** Places of a recovery where the engine is asked to look or to act. */
  datatype Point = Generate | PortsBefore | Recreate | Verify | PortsAgain | Launch | Wait | Look

  /** Everything outside the store, as one recovery meets it; unseen is why ports could not be looked at. */
  datatype World = World(
    quiet: bool, strayGone: bool, container: Option<string>, matches: nat -> bool, runtime: Runtime,
    conflicts: Result<set<string>, Trouble>, unseen: Option<Trouble>, refused: set<u16>, answers: Point -> Option<Trouble>,
    created: string, published: bool)

  predicate ValidWorld(w: World) {
    Hex64(w.created) && (w.container.Some? ==> Hex64(w.container.value))
  }

  lemma WorldNames(w: World)
    requires ValidWorld(w)
    ensures w.created != "" && w.container != Some("")
  {
  }

  datatype Outcome =
    | Completed(container: string) | Proposed(slots: set<string>) | Held | Rejected
    | Troubled(trouble: Trouble) | Refused(conflict: Conflict)

  function StatusOf(trouble: Trouble): Status {
    match trouble case PortTaken => AwaitingDecision case InDoubt => OutcomeUnknown case Failing => Failed
  }

  // Deciding ----------------------------------------------------------------------------------------

  datatype Verdict = Hold | Reject | Go(restore: bool, complete: bool)

  predicate Restores(o: Operation, action: Action) {
    action == Restore || (action == Reconcile && o.phase == "restore")
  }

  predicate FirstMatch(w: World, original: nat, candidate: nat, found: Option<nat>) {
    match found
    case Some(r) => original <= r <= candidate && w.matches(r) && forall q | original <= q < r :: !w.matches(q)
    case None => forall q | original <= q <= candidate :: !w.matches(q)
  }

  /** The container, if there is one, is a configuration this operation confirmed. */
  predicate Recognized(w: World, original: nat, candidate: nat) {
    w.container.Some? ==> exists r :: original <= r <= candidate && w.matches(r)
  }

  /** The container already is what the operation wants, in the state it wants. */
  predicate Already(w: World, original: nat, target: nat, wanted: Runtime) {
    && w.container.Some? && w.runtime == wanted && w.matches(target)
    && forall q | original <= q < target :: !w.matches(q)
  }

  function Wanted(kind: Kind): Runtime { if kind == EditPort then Stopped else Ready }

  function RuntimeOf(w: World): Runtime { if w.container.Some? then w.runtime else Gone }

  /** Evidence that is not conclusive holds everything; only a stopped or absent container may be replaced. */
  function Judge(o: Operation, action: Action, w: World, original: nat, candidate: nat): Verdict {
    var restore := Restores(o, action);
    var complete := Already(w, original, if restore then original else candidate, Wanted(o.kind));
    if restore && o.kind != EditPort then Reject
    else if !w.strayGone || !Recognized(w, original, candidate) then Hold
    else if !complete && (action == Reconcile || RuntimeOf(w) !in {Stopped, Gone}) then Hold
    else Go(restore, complete)
  }

  lemma JudgedComplete(o: Operation, action: Action, w: World, original: nat, candidate: nat)
    requires Judge(o, action, w, original, candidate).Go?
    ensures var v := Judge(o, action, w, original, candidate);
      (v.complete ==> w.container.Some?) && (v.restore ==> o.kind == EditPort)
  {
  }

  // Reading the confirmation ---------------------------------------------------------------------------

  predicate SameConfirmation(saved: Receipt, receipt: Receipt) {
    && saved.operation == receipt.operation && saved.instance == receipt.instance
    && saved.hash == receipt.hash && saved.confirmed == receipt.confirmed
  }

  predicate Recovers(kind: Kind) { Creates(kind) || kind == EditPort }

  /** Held reservations count for an edit and for a change already confirmed, otherwise only committed ones. */
  function Reckoned(c: Cell, op: string): set<ReservationId>
    requires op in c.ops
  {
    set id | id in c.reservations && (c.reservations[id].status == Committed
      || (c.reservations[id].status == ReservationStatus.Held && (c.ops[op].kind == EditPort || op in c.pending)))
  }

  /** Every port has its reservation, and a creation that was never changed has no other. */
  predicate PortsReserved(c: Cell, op: string, ports: Bindings)
    requires op in c.ops
  {
    && (c.ops[op].kind != EditPort && op !in c.pending ==> |ports| == |Reckoned(c, op)|)
    && forall slot | slot in ports :: exists id :: id in Reckoned(c, op) && c.reservations[id].at == ports[slot].at
  }

  /** What the columns of an operation and its reservations must still say for its confirmation to be read. */
  predicate StillConfirmed(c: Cell, op: string)
    requires op in c.ops
  {
    var o, pending := c.ops[op], op in c.pending;
    && c.lifecycle == Managed && o.expected == c.revision
    && (o.status == Accepted || ((pending || Creates(o.kind)) && Unresolved(o)))
    && (o.kind == EditPort ==> o.oldSpec == c.applied)
    && (o.kind == EditPort && !pending ==> o.oldSpec.Some? && o.newSpec == Some(o.oldSpec.value + 1))
    && (Creates(o.kind) && !pending ==> o.newSpec == Some(1))
    && o.newSpec.Some? && o.newSpec.value in c.specs && PortsReserved(c, op, c.specs[o.newSpec.value])
  }

  function ReadError(db: Db, receipt: Receipt): Option<Conflict> {
    var key := (receipt.scope, receipt.request);
    if key !in db.receipts then Some(Missing)
    else if !SameConfirmation(db.receipts[key], receipt) then Some(InvalidInput)
    else if receipt.instance !in db.cells || receipt.operation !in db.cells[receipt.instance].ops then Some(Missing)
    else if db.cells[receipt.instance].scope != receipt.scope then Some(InvalidInput)
    else if !StillConfirmed(db.cells[receipt.instance], receipt.operation) then Some(InvalidInput)
    else None
  }

  lemma {:induction false} AsManyEndpointsAsSlots(ports: Bindings, slots: set<string>)
    requires Distinct(ports) && slots <= ports.Keys
    ensures |set slot | slot in slots :: ports[slot].at| == |slots|
  {
    if slots != {} {
      var one :| one in slots;
      var rest := slots - {one};
      AsManyEndpointsAsSlots(ports, rest);
      var fewer := set slot | slot in rest :: ports[slot].at;
      assert ports[one].at !in fewer;
      assert (set slot | slot in slots :: ports[slot].at) == fewer + {ports[one].at} by {
        assert slots == rest + {one};
      }
    }
  }

  lemma {:induction false} AsManyEndpointsAsIds(rs: Reservations, ids: set<ReservationId>)
    requires OnePerEndpoint(rs) && ids <= rs.Keys && forall id | id in ids :: Active(rs[id])
    ensures |set id | id in ids :: rs[id].at| == |ids|
  {
    if ids != {} {
      var one :| one in ids;
      var rest := ids - {one};
      AsManyEndpointsAsIds(rs, rest);
      var fewer := set id | id in rest :: rs[id].at;
      assert rs[one].at !in fewer;
      assert (set id | id in ids :: rs[id].at) == fewer + {rs[one].at} by {
        assert ids == rest + {one};
      }
    }
  }

  /** With one committed reservation for each port and none besides, there are as many as ports. */
  lemma AsManyAsPorts(rs: Reservations, ports: Bindings, ids: set<ReservationId>)
    requires OnePerEndpoint(rs) && Distinct(ports) && CommittedFor(rs, ports)
    requires ids == set id | id in rs && rs[id].status == Committed
    ensures |ids| == |ports|
  {
    AsManyEndpointsAsIds(rs, ids);
    AsManyEndpointsAsSlots(ports, ports.Keys);
    var bound, reserved := set slot | slot in ports.Keys :: ports[slot].at, set id | id in ids :: rs[id].at;
    forall at ensures at in bound <==> at in reserved {
      if at in bound {
        var slot :| slot in ports && ports[slot].at == at;
        var id :| id in rs && rs[id] == Reservation(at, Committed);
        assert id in ids && rs[id].at == at;
      }
      if at in reserved {
        var id :| id in ids && rs[id].at == at;
        assert Occupies(ports, rs[id].at);
      }
    }
    assert bound == reserved && |ports.Keys| == |ports|;
  }

  /** The bindings of a change that moves ports are reserved, committed or held. */
  lemma ChangeReserved(c: Cell, op: string)
    requires CellOk(c) && op in c.ops && op in c.pending && Unresolved(c.ops[op])
    ensures c.pending[op].candidate in c.specs && PortsReserved(c, op, c.specs[c.pending[op].candidate])
  {
    hide CellOk, CommittedFor, MovesHeld, OnePerEndpoint, Distinct;
    PendingParts(c, op, false);
    var p := c.pending[op];
    var ports := c.specs[p.candidate];
    forall slot | slot in ports ensures exists id :: id in Reckoned(c, op) && c.reservations[id].at == ports[slot].at {
      var id := BindingReserved(c.reservations, p.listed, c.specs[p.base], ports, slot);
      assert id in Reckoned(c, op);
    }
  }

  /** A creation that was never changed has exactly its first ports reserved. */
  lemma CreationReserved(c: Cell, op: string)
    requires CellOk(c) && op in c.ops && op !in c.pending && Unresolved(c.ops[op]) && Creates(c.ops[op].kind)
    ensures 1 in c.specs && PortsReserved(c, op, c.specs[1])
  {
    hide OpsOk, CommittedIsBase, AppliedIsCreated, StorageOk, OnePerEndpoint;
    UnresolvedIsOk(c, op);
    assert Shaped(c.specs[1], c.specs[1].Keys);
    AsManyAsPorts(c.reservations, c.specs[1], Reckoned(c, op));
    forall slot | slot in c.specs[1]
      ensures exists id :: id in Reckoned(c, op) && c.reservations[id].at == c.specs[1][slot].at
    {
      var id :| id in c.reservations && c.reservations[id] == Reservation(c.specs[1][slot].at, Committed);
      assert id in Reckoned(c, op);
    }
  }

  lemma UndecidedIsConfirmed(c: Cell, op: string)
    requires CellOk(c) && op in c.ops && Recovers(c.ops[op].kind) && Unresolved(c.ops[op])
    ensures StillConfirmed(c, op)
  {
    hide SpecsOk, ReservationsOk, CommittedIsBase, MovesHeld, PortsReserved;
    UnresolvedIsOk(c, op);
    if op in c.pending { ChangeReserved(c, op); } else { CreationReserved(c, op); }
  }

  /** Only the receipt decides: no column and no reservation can make a confirmation unreadable. */
  lemma ReadFailsOnReceiptOnly(db: Db, receipt: Receipt)
    requires DbOk(db) && receipt.operation in db.owner
    requires var o := db.cells[db.owner[receipt.operation]].ops[receipt.operation]; Recovers(o.kind) && Unresolved(o)
    ensures ReadError(db, receipt).None? <==>
      (receipt.scope, receipt.request) in db.receipts
      && SameConfirmation(db.receipts[(receipt.scope, receipt.request)], receipt)
  {
    hide CellsOk, PortsApart, CellOk, StillConfirmed;
    var key := (receipt.scope, receipt.request);
    if key in db.receipts && SameConfirmation(db.receipts[key], receipt) {
      assert ReceiptRow(db, key);
      OneCell(db, receipt.instance);
      UndecidedIsConfirmed(db.cells[receipt.instance], receipt.operation);
    }
  }

  lemma ReadIsMatched(db: Db, receipt: Receipt)
    requires ReadError(db, receipt).None?
    ensures (receipt.scope, receipt.request) in db.receipts
      && SameConfirmation(db.receipts[(receipt.scope, receipt.request)], receipt)
  {
  }

  function RowOf(db: Db, op: string): Operation
    requires op in db.owner && db.owner[op] in db.cells && op in db.cells[db.owner[op]].ops
  {
    db.cells[db.owner[op]].ops[op]
  }

  predicate OwnerRow(db: Db, op: string) {
    op in db.owner ==> db.owner[op] in db.cells && op in db.cells[db.owner[op]].ops
  }

  /** What ends a recovery before it looks at the engine. */
  function Entry(db: Db, receipt: Receipt, w: World): Option<Outcome>
    requires OwnerRow(db, receipt.operation)
  {
    if receipt.operation !in db.owner || !Unresolved(RowOf(db, receipt.operation)) then Some(Refused(Missing))
    else
      var o := RowOf(db, receipt.operation);
      if !w.quiet || !Recovers(o.kind) || !Undecided(o.status) then Some(Outcome.Held)
      else match ReadError(db, receipt) case Some(e) => Some(Refused(e)) case None => None
  }

  // Steps of one recovery --------------------------------------------------------------------------------

  /** The operation is executing and may record its next step. */
  ghost predicate Runs(o: Operation) {
    o.status == Executing && Journal.Sound(o) && !Journal.AnyOpen(o.steps)
  }

  function Opened(o: Operation, step: Step): Operation {
    o.(steps := o.steps[|o.steps| + 1 := step.(outcome := None)])
  }

  function Grown(o: Operation, step: Step): Operation { o.(steps := o.steps[|o.steps| + 1 := step]) }

  lemma StepRecorded(o: Operation, step: Step)
    requires Runs(o) && step.attempt == o.attempt && step.resource != ""
    ensures Journal.Apply(o, Journal.Record(|o.steps| + 1, o.attempt, step.command, step.resource, step.expected))
      == Ok(Opened(o, step))
    ensures Journal.Sound(Opened(o, step))
  {
    Journal.LastIsCount(o.steps);
    if |o.steps| in o.steps { assert o.steps[|o.steps|].outcome.Some?; }
    Journal.CallKeeps(o, Journal.Record(|o.steps| + 1, o.attempt, step.command, step.resource, step.expected));
  }

  lemma StepClosed(o: Operation, step: Step)
    requires Runs(o) && step.outcome.Some? && Journal.Sound(Opened(o, step))
    ensures Journal.Apply(Opened(o, step), Journal.Finish(|o.steps| + 1, step.outcome.value)) == Ok(Grown(o, step))
    ensures Runs(Grown(o, step)) && |Grown(o, step).steps| == |o.steps| + 1
  {
    hide Journal.AttemptsRise, Journal.OpenAtEnd;
    var open := Opened(o, step);
    assert Journal.Closed(open, |o.steps| + 1, step.outcome.value).steps == Grown(o, step).steps;
    Journal.CallKeeps(open, Journal.Finish(|o.steps| + 1, step.outcome.value));
  }

  /** Whatever was still open before the n-th step counts as unknown. */
  function Doubted(o: Operation, n: nat): Operation {
    o.(steps := map k | k in o.steps ::
         if k < n && o.steps[k].outcome.None? then o.steps[k].(outcome := Some(StepUnknown)) else o.steps[k])
  }

  lemma DoubtNone(o: Operation)
    requires Journal.Sound(o)
    ensures Doubted(o, 1) == o
  {
    assert Doubted(o, 1).steps == o.steps;
  }

  lemma DoubtNext(o: Operation, k: nat)
    requires Journal.Numbered(o.steps) && 1 <= k <= |o.steps| && Undecided(o.status)
    ensures k in Doubted(o, k).steps && Doubted(o, k).steps[k] == o.steps[k]
    ensures if o.steps[k].outcome in {None, Some(StepUnknown)}
      then Journal.Apply(Doubted(o, k), Journal.Reconcile(k, StepUnknown)) == Ok(Doubted(o, k + 1))
      else Doubted(o, k + 1) == Doubted(o, k)
  {
    var before, after := Doubted(o, k), Doubted(o, k + 1);
    if o.steps[k].outcome in {None, Some(StepUnknown)} {
      assert Journal.Closed(before, k, StepUnknown).steps == after.steps;
    } else {
      assert before.steps == after.steps;
    }
  }

  lemma DoubtedOnlySteps(o: Operation, n: nat)
    ensures Doubted(o, n) == o.(steps := Doubted(o, n).steps)
  {
  }

  lemma DoubtedIsClosed(o: Operation)
    requires Journal.Sound(o)
    ensures var d := Doubted(o, |o.steps| + 1);
      Journal.Sound(d) && !Journal.AnyOpen(d.steps) && |d.steps| == |o.steps|
  {
    var d := Doubted(o, |o.steps| + 1);
    assert d.steps.Keys == o.steps.Keys;
    assert |d.steps.Keys| == |o.steps.Keys|;
  }

  function PhaseOf(restore: bool, pending: bool): string {
    if restore then "restore" else if pending then "ports" else "reconcile"
  }

  lemma RetryAccepted(o: Operation, phase: string)
    requires Journal.Sound(o) && Undecided(o.status) && !Journal.AnyOpen(o.steps) && phase != ""
    ensures var after := o.(attempt := o.attempt + 1, status := Executing, phase := phase);
      Journal.Apply(o, Journal.Retry(phase)) == Ok(after) && Runs(after)
  {
    Journal.CallKeeps(o, Journal.Retry(phase));
  }

  // Ending a recovery -----------------------------------------------------------------------------------

  /** Once the wanted container was seen last, nothing in the store can refuse to settle the change. */
  lemma SettlementAccepted(c: Cell, op: string, container: string, restore: bool)
    requires CellOk(c) && op in c.ops && op in c.pending && Hex64(container)
    requires Recovers(c.ops[op].kind) && c.ops[op].status == Executing
    requires restore == (c.ops[op].phase == "restore") && (restore ==> c.ops[op].kind == EditPort)
    requires Saw(c.ops[op], container, if c.ops[op].kind == EditPort then ContainerStopped else ContainerRunning)
    requires Creates(c.ops[op].kind) ==> MayBeReady(c.storage)
    ensures FinishChange(c, op, container, restore, true) == Ok(Finished(c, op, restore))
  {
    hide SpecsOk, ReservationsOk, CommittedIsBase, MovesHeld, EachReservedOnce, Saw, MayBeReady, Hex64, Journal.Sound;
    UnresolvedIsOk(c, op);
    FinishNeverMiscounts(c, op, restore);
  }

  lemma SeenLast(o: Operation, step: Step)
    requires Journal.Numbered(o.steps) && Journal.Numbered(Grown(o, step).steps)
    ensures Grown(o, step).steps != map[] && Grown(o, step).steps[Journal.Last(Grown(o, step).steps)] == step
  {
    Journal.LastIsCount(Grown(o, step).steps);
    assert |Grown(o, step).steps| == |o.steps| + 1;
  }

  // Points passed ---------------------------------------------------------------------------------------

  function Rebuilding(restore: bool): seq<Point> {
    (if restore then [] else [Generate]) + [PortsBefore, Recreate, Verify]
  }

  const STARTING := [PortsAgain, Launch, Wait]

  /** Everything one recovery asks for, in order. */
  function Plan(kind: Kind, restore: bool, complete: bool): seq<Point> {
    (if complete then [] else Rebuilding(restore) + (if kind == EditPort then [] else STARTING)) + [Look]
  }

  /** These are the points of a plan up to its end, or up to and including the first that went wrong. */
  predicate Passed(w: World, plan: seq<Point>, asked: seq<Point>, trouble: Option<Trouble>) {
    && asked <= plan
    && (forall i | 0 <= i < |asked| - 1 :: w.answers(asked[i]).None?)
    && if trouble.None? then asked == plan && (asked != [] ==> w.answers(asked[|asked| - 1]).None?)
       else asked != [] && w.answers(asked[|asked| - 1]) == trouble
  }

  /** What the last point answered. */
  function LastTrouble(w: World, asked: seq<Point>): Option<Trouble> {
    if asked == [] then None else w.answers(asked[|asked| - 1])
  }

  lemma PassedOn(
    w: World, plan: seq<Point>, asked: seq<Point>, more: seq<Point>, later: seq<Point>, trouble: Option<Trouble>)
    requires Passed(w, plan, asked, None) && Passed(w, more, later, trouble)
    ensures Passed(w, plan + more, asked + later, trouble)
  {
    var all := asked + later;
    forall i | 0 <= i < |all| - 1 ensures w.answers(all[i]).None? {
      if i < |asked| { assert i < |asked| - 1 || all[i] == asked[|asked| - 1]; } else { assert all[i] == later[i - |asked|]; }
    }
    if later != [] { assert all[|all| - 1] == later[|later| - 1]; } else { assert all == asked; }
  }

  lemma PassedEnd(w: World, plan: seq<Point>, asked: seq<Point>, more: seq<Point>, trouble: Option<Trouble>)
    requires Passed(w, plan, asked, trouble) && trouble.Some?
    ensures Passed(w, plan + more, asked, trouble)
  {
  }

  lemma PassedOne(w: World, point: Point)
    ensures Passed(w, [point], [point], w.answers(point))
  {
  }

  lemma PassedNone(w: World)
    ensures Passed(w, [], [], None)
  {
  }

  lemma StartPasses(w: World, asked: seq<Point>, trouble: Option<Trouble>)
    requires Passed(w, STARTING, asked, trouble)
    ensures trouble.None? ==> Launch in asked
  {
    assert STARTING[1] == Launch;
  }

  // What is recorded of it ------------------------------------------------------------------------------

  /** The command behind a point; the other points only look. */
  function CommandAt(point: Point): Option<Command> {
    match point
    case Generate => Some(GenerateArtifact)
    case Recreate => Some(ComposeCreate)
    case Launch => Some(ComposeStart)
    case Look => Some(Command.Observe)
    case _ => None
  }

  /** The points passed that leave a step. */
  function Commands(asked: seq<Point>): seq<Point> {
    if asked == [] then []
    else
      var last := asked[|asked| - 1];
      Commands(asked[..|asked| - 1]) + (if CommandAt(last).Some? then [last] else [])
  }

  /** A closed step of one command: succeeded if all went well there, and unknown otherwise. */
  predicate TrueStep(w: World, attempt: nat, step: Step, point: Point) {
    && step.attempt == attempt && Some(step.command) == CommandAt(point)
    && step.outcome == Some(if w.answers(point).None? then StepSucceeded else StepUnknown)
  }

  predicate Extends(base: map<nat, Step>, now: map<nat, Step>) {
    forall k | k in base :: k in now && now[k] == base[k]
  }

  /** After the first so many steps come true steps of these commands, in order and in one attempt. */
  predicate TrueAfter(w: World, first: nat, attempt: nat, now: map<nat, Step>, done: seq<Point>) {
    forall i | first < i <= first + |done| :: i in now && TrueStep(w, attempt, now[i], done[i - first - 1])
  }

  /** Exactly one true step was added to a row for each command. */
  predicate Added(w: World, base: map<nat, Step>, attempt: nat, now: map<nat, Step>, done: seq<Point>) {
    Extends(base, now) && |now| == |base| + |done| && TrueAfter(w, |base|, attempt, now, done)
  }

  /** The same, said of the points passed. */
  ghost predicate Told(w: World, base: map<nat, Step>, attempt: nat, now: map<nat, Step>, asked: seq<Point>) {
    Added(w, base, attempt, now, Commands(asked))
  }

  lemma NothingTold(w: World, base: map<nat, Step>, attempt: nat)
    ensures Told(w, base, attempt, base, [])
  {
  }

  lemma LookedAt(w: World, base: map<nat, Step>, attempt: nat, now: map<nat, Step>, asked: seq<Point>, point: Point)
    requires Told(w, base, attempt, now, asked) && CommandAt(point).None?
    ensures Told(w, base, attempt, now, asked + [point])
  {
    OneMoreCommand(asked, point);
  }

  lemma OneMoreCommand(asked: seq<Point>, point: Point)
    ensures Commands(asked + [point]) == Commands(asked) + (if CommandAt(point).Some? then [point] else [])
  {
    assert (asked + [point])[..|asked|] == asked;
  }

  lemma OneMoreTrue(
    w: World, first: nat, attempt: nat, now: map<nat, Step>, done: seq<Point>, point: Point, step: Step)
    requires TrueAfter(w, first, attempt, now, done) && TrueStep(w, attempt, step, point)
    ensures TrueAfter(w, first, attempt, now[first + |done| + 1 := step], done + [point])
  {
    hide TrueStep;
  }

  lemma OneMoreAdded(
    w: World, base: map<nat, Step>, attempt: nat, now: map<nat, Step>, done: seq<Point>, point: Point, step: Step)
    requires Added(w, base, attempt, now, done) && |now| + 1 !in now
    requires TrueStep(w, attempt, step, point)
    ensures Added(w, base, attempt, now[|now| + 1 := step], done + [point])
  {
    hide TrueStep, TrueAfter;
    OneMoreTrue(w, |base|, attempt, now, done, point, step);
  }

  lemma OneMoreTold(
    w: World, base: map<nat, Step>, attempt: nat, now: map<nat, Step>, asked: seq<Point>, point: Point, step: Step)
    requires Told(w, base, attempt, now, asked) && |now| + 1 !in now
    requires TrueStep(w, attempt, step, point)
    ensures Told(w, base, attempt, now[|now| + 1 := step], asked + [point])
  {
    OneMoreCommand(asked, point);
    OneMoreAdded(w, base, attempt, now, Commands(asked), point, step);
  }

  /** What the row of an operation says after one attempt of recovery, compared with what it said before. */
  ghost predicate ToldSince(w: World, before: Operation, after: Operation, asked: seq<Point>) {
    && after.attempt == before.attempt + 1
    && Told(w, Doubted(before, |before.steps| + 1).steps, before.attempt + 1, after.steps, asked)
  }
}
