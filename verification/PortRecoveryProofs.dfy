/** What one recovery does to the rows of its instance, and what that guarantees. */
module PortRecoveryProofs {
  import opened Wrappers
  import opened LedgerTypes
  import opened PortEdits
  import opened CellInvariant
  import opened PortEditProofs
  import opened InstanceSteps
  import opened LedgerStore
  import opened StoreRows
  import opened PortRecoverySpec
  import Journal

  // What changes in an instance ---------------------------------------------------------------------

  /** Only this operation's row changed, and perhaps the mark that storage may hold data. */
  ghost predicate Kept(c: Cell, d: Cell, op: string) {
    && op in c.ops && op in d.ops && d == c.(ops := c.ops[op := d.ops[op]], storage := d.storage)
    && Journal.SameRequest(c.ops[op], d.ops[op])
    && (d.storage == c.storage || (Creates(c.ops[op].kind) && d.storage == Overwritten(c.storage)))
  }

  lemma RowKept(c: Cell, op: string, o: Operation)
    requires op in c.ops && Journal.SameRequest(c.ops[op], o)
    ensures Kept(c, WithRow(c, op, o), op)
  {
  }

  lemma KeptTrans(a: Cell, b: Cell, c: Cell, op: string)
    requires Kept(a, b, op) && Kept(b, c, op)
    ensures Kept(a, c, op)
  {
    assert Overwritten(Overwritten(a.storage)) == Overwritten(a.storage);
    assert c.ops == a.ops[op := c.ops[op]];
  }

  /** Steps were added to the running operation, and storage was perhaps marked. */
  ghost predicate Advanced(before: Db, now: Db, instance: string, op: string) {
    && Names(before, instance, op) && Names(now, instance, op) && now == At(before, instance, now.cells[instance])
    && var c, d := before.cells[instance], now.cells[instance];
    && Kept(c, d, op) && d.ops[op] == c.ops[op].(steps := d.ops[op].steps)
  }

  lemma AdvancedTrans(a: Db, b: Db, c: Db, instance: string, op: string)
    requires Advanced(a, b, instance, op) && Advanced(b, c, instance, op)
    ensures Advanced(a, c, instance, op)
    ensures b.cells[instance].storage == Overwritten(a.cells[instance].storage)
      ==> c.cells[instance].storage == Overwritten(a.cells[instance].storage)
  {
    var x, y, z := a.cells[instance], b.cells[instance], c.cells[instance];
    assert Overwritten(Overwritten(x.storage)) == Overwritten(x.storage);
    assert z == x.(ops := x.ops[op := z.ops[op]], storage := z.storage) by {
      assert z.ops == x.ops[op := z.ops[op]];
    }
  }

  lemma AdvancedRefl(db: Db, instance: string, op: string)
    requires Names(db, instance, op)
    ensures Advanced(db, db, instance, op)
  {
    var c := db.cells[instance];
    assert c.ops[op := c.ops[op]] == c.ops;
  }

  lemma GrownAdvances(db: Db, instance: string, op: string, step: Step)
    requires Names(db, instance, op)
    ensures var c := db.cells[instance];
      Advanced(db, At(db, instance, WithRow(c, op, Grown(c.ops[op], step))), instance, op)
  {
  }

  lemma OverwriteAdvances(db: Db, instance: string, op: string)
    requires Names(db, instance, op) && Creates(db.cells[instance].ops[op].kind)
    ensures var c := db.cells[instance];
      var next := At(db, instance, c.(storage := Overwritten(c.storage)));
      Advanced(db, next, instance, op) && LedgerStore.Apply(db, OverwriteStarted(op)) == Ok(next)
  {
    var c := db.cells[instance];
    assert c.ops[op := c.ops[op]] == c.ops;
  }

  /** The closed step of one effect. */
  function Closing(o: Operation, command: Command, resource: string, expects: Expected, trouble: Option<Trouble>): Step {
    Step(o.attempt, command, resource, expects, Some(if trouble.None? then StepSucceeded else StepUnknown))
  }

  // How a recovery that began has ended -----------------------------------------------------------------

  /**
   * A completed recovery has the bindings it was for in effect and no others reserved; any other leaves
   * bindings, reservations and revisions as they were and says why.
   */
  ghost predicate Concluded(c: Cell, d: Cell, op: string, restore: bool, r: Outcome) {
    && op in c.ops && op in d.ops
    && match r
       case Completed(_) =>
         && d.ops[op].status == (if restore then Abandoned else Succeeded) && d.specs == c.specs
         && d.applied == (if restore then c.applied else c.ops[op].newSpec)
         && d.applied.Some? && d.applied.value in d.specs
         && (op in c.pending ==> ExactlyBound(d.reservations, d.specs[d.applied.value]))
       case Troubled(trouble) => Kept(c, d, op) && d.ops[op].status == StatusOf(trouble)
       case Refused(_) => Kept(c, d, op) && d.ops[op].status == Failed
       case _ => false
  }

  predicate StepsStay(before: Operation, after: Operation) {
    after.steps == before.steps && after.attempt == before.attempt
  }

  lemma NextIsFree(o: Operation)
    requires Runs(o)
    ensures |o.steps| + 1 !in o.steps
  {
  }

  lemma ConcludedByChange(c: Cell, d: Cell, op: string, container: string, restore: bool, published: bool)
    requires CellOk(d) && Kept(c, d, op) && FinishChange(d, op, container, restore, published).Ok?
    ensures Concluded(c, FinishChange(d, op, container, restore, published).value, op, restore, Completed(container))
    ensures op in d.ops && StepsStay(d.ops[op], FinishChange(d, op, container, restore, published).value.ops[op])
  {
    hide CellOk, Settled, ExactlyBound, Saw, MayBeReady, Hex64, EachReservedOnce, Overwritten, Settleable;
    FinishFacts(d, op, container, restore, published);
    FinishBindsExactly(d, op, container, restore, published);
    PendingParts(d, op, restore);
  }

  lemma ConcludedByReady(c: Cell, d: Cell, op: string, container: string)
    requires CellOk(d) && Kept(c, d, op) && op !in d.pending && CompleteReady(d, op, container).Ok?
    ensures Concluded(c, CompleteReady(d, op, container).value, op, false, Completed(container))
    ensures op in d.ops && StepsStay(d.ops[op], CompleteReady(d, op, container).value.ops[op])
  {
    hide ReservationsOk, OpsOk, CommittedIsBase, ExactlyBound, SawState, Precedes, MayBeReady, Hex64, Overwritten;
  }

  ghost predicate CanSettle(c: Cell, op: string, container: string, restore: bool, published: bool) {
    op in c.pending && FinishChange(c, op, container, restore, published).Ok?
  }

  /** Nothing but the engine can keep such a change from being settled. */
  predicate Settlable(c: Cell, op: string, complete: bool) {
    op in c.ops && op in c.pending && (c.ops[op].kind == EditPort || (!complete && AllPresent(c.storage)))
  }

  lemma SettlableSettles(c: Cell, d: Cell, op: string, container: string, restore: bool, complete: bool)
    requires CellOk(d) && Kept(c, d, op) && Settlable(c, op, complete) && Hex64(container) && d.ops[op].status == Executing
    requires Recovers(d.ops[op].kind) && d.ops[op].phase == PhaseOf(restore, true)
    requires restore ==> d.ops[op].kind == EditPort
    requires Saw(d.ops[op], container, Sight(d, op))
    requires !complete && Creates(d.ops[op].kind) ==> d.storage == Overwritten(c.storage)
    ensures CanSettle(d, op, container, restore, true)
  {
    hide CellOk, Hex64, Saw, FinishChange;
    ChangeSettles(d, op, container, restore);
  }

  lemma AdvancedKept(c: Cell, before: Db, now: Db, instance: string, op: string)
    requires Advanced(before, now, instance, op) && Kept(c, before.cells[instance], op)
    ensures now == At(before, instance, now.cells[instance]) && Kept(c, now.cells[instance], op)
    ensures now.cells[instance].ops[op].status == before.cells[instance].ops[op].status
    ensures now.cells[instance].ops[op].phase == before.cells[instance].ops[op].phase
  {
    KeptTrans(c, before.cells[instance], now.cells[instance], op);
  }

  lemma KeptRequest(c: Cell, d: Cell, op: string)
    requires Kept(c, d, op)
    ensures d.pending == c.pending && Journal.SameRequest(c.ops[op], d.ops[op])
  {
  }

  lemma ConfirmedRow(c: Cell, taken: set<Endpoint>, op: string, candidate: nat, ports: Proposal)
    requires op in c.ops
    ensures var r := ConfirmPorts(c, taken, op, candidate, ports);
      r.Ok? ==> op in r.value.ops && r.value.ops[op].kind == c.ops[op].kind && Undecided(r.value.ops[op].status)
                && op in r.value.pending && StepsStay(c.ops[op], r.value.ops[op])
  {
    hide Acceptable, ToMap, PortEdits.Refused, PortEdits.Hold, Unreserved, NewIds;
  }

  lemma EditIsPending(c: Cell, op: string)
    requires CellOk(c) && op in c.ops && Unresolved(c.ops[op])
    ensures c.ops[op].kind == EditPort ==> op in c.pending
  {
    UnresolvedIsOk(c, op);
  }

  /** What the last step of a recovery must have seen. */
  function Sight(c: Cell, op: string): Expected
    requires op in c.ops
  {
    if c.ops[op].kind == EditPort then ContainerStopped else if op in c.pending then ContainerRunning else StateObserved
  }

  predicate AllPresent(storage: map<string, Allocation>) {
    forall slot | slot in storage :: storage[slot].presence == Present
  }

  /** Whether the container is known to be the wanted one once every point passed. */
  lemma ChangeSettles(c: Cell, op: string, container: string, restore: bool)
    requires CellOk(c) && op in c.ops && op in c.pending && Hex64(container) && c.ops[op].status == Executing
    requires Recovers(c.ops[op].kind) && c.ops[op].phase == PhaseOf(restore, true)
    requires restore ==> c.ops[op].kind == EditPort
    requires Saw(c.ops[op], container, Sight(c, op)) && (Creates(c.ops[op].kind) ==> MayBeReady(c.storage))
    ensures FinishChange(c, op, container, restore, true).Ok?
  {
    hide CellOk, Hex64, Saw, MayBeReady, FinishChange;
    assert !restore ==> c.ops[op].phase != "restore" by { assert |"ports"| != |"restore"|; }
    SettlementAccepted(c, op, container, restore);
  }

  function OriginalOf(c: Cell, op: string): nat
    requires op in c.ops
  {
    if op in c.pending then c.pending[op].base else c.ops[op].newSpec.GetOr(0)
  }

  /** How a recovery that acted has gone from these rows on. */
  ghost predicate Ran(
    c: Cell, d: Cell, op: string, w: World, restore: bool, complete: bool, r: Outcome, asked: seq<Point>)
  {
    var trouble := LastTrouble(w, asked);
    && Concluded(c, d, op, restore, r) && Passed(w, Plan(c.ops[op].kind, restore, complete), asked, trouble)
    && (if trouble.Some? then r == Troubled(trouble.value) else r.Completed? || r.Refused?)
    && (trouble.None? && w.published && Settlable(c, op, complete) ==> r.Completed?)
    && op in c.ops && op in d.ops && ToldSince(w, c.ops[op], d.ops[op], asked)
  }

  ghost predicate Unmoved(c: Cell, d: Cell, asked: seq<Point>) { d == c && asked == [] }

  ghost predicate Waits(c: Cell, d: Cell, op: string, asked: seq<Point>)
    requires op in c.ops
  {
    d == WithRow(c, op, c.ops[op].(status := AwaitingDecision, phase := "port_conflict")) && asked == []
  }

  /** Everything one recovery may do to the rows of its instance, and what it answers. */
  ghost predicate Recovered(
    c: Cell, d: Cell, taken: set<Endpoint>, op: string, w: World, action: Action, r: Outcome, asked: seq<Point>)
    requires op in c.ops
  {
    var o, original := c.ops[op], OriginalOf(c, op);
    var candidate := o.newSpec.GetOr(0);
    match Judge(o, action, w, original, candidate)
    case Hold => r == Outcome.Held && Unmoved(c, d, asked)
    case Reject => r == Rejected && Unmoved(c, d, asked)
    case Go(restore, complete) =>
      match action
      case Propose =>
        (match w.conflicts
         case Err(trouble) => r == Troubled(trouble) && Unmoved(c, d, asked)
         case Ok(slots) =>
           if slots == {} then r == Outcome.Held && Unmoved(c, d, asked) else r == Proposed(slots) && Waits(c, d, op, asked))
      case Other(chosen, ports) =>
        if complete || chosen != candidate then r == Rejected && Unmoved(c, d, asked)
        else if w.unseen.Some? then r == Troubled(w.unseen.value) && Unmoved(c, d, asked)
        else if !Inspected(c, w.refused, candidate, ports) then r == Troubled(PortTaken) && Waits(c, d, op, asked)
        else (
          match ConfirmPorts(c, taken, op, candidate, ports)
          case Err(e) => r == Refused(e) && Unmoved(c, d, asked)
          case Ok(confirmed) => Ran(confirmed, d, op, w, restore, complete, r, asked))
      case _ =>
        if op !in c.pending && !complete then r == Outcome.Held && Unmoved(c, d, asked)
        else Ran(c, d, op, w, restore, complete, r, asked)
  }

  // What a recovery promises ----------------------------------------------------------------------------

  /** A command that can change the container. */
  predicate Changes(asked: seq<Point>) { Recreate in asked || Launch in asked }

  /**
   * A container is replaced or started only when asked for, only if what is there is stopped or gone and
   * of a configuration this operation confirmed, and started only for an instance that was being created.
   */
  lemma ChangesOnlyWhatWasVerified(
    c: Cell, d: Cell, taken: set<Endpoint>, op: string, w: World, action: Action, r: Outcome, asked: seq<Point>)
    requires op in c.ops && Recovered(c, d, taken, op, w, action, r, asked) && Changes(asked)
    ensures !action.Reconcile? && !action.Propose? && w.strayGone && RuntimeOf(w) in {Stopped, Gone}
    ensures Recognized(w, OriginalOf(c, op), c.ops[op].newSpec.GetOr(0))
    ensures Launch in asked ==> c.ops[op].kind != EditPort
  {
    hide Concluded, Settlable, Inspected, Recognized, Already, ToldSince;
    var o := c.ops[op];
    var v := Judge(o, action, w, OriginalOf(c, op), o.newSpec.GetOr(0));
    assert v.Go?;
    if action.Other? { ConfirmedRow(c, taken, op, action.candidate, action.ports); }
    PlanChanges(o.kind, v.restore, v.complete, asked);
  }

  lemma PlanChanges(kind: Kind, restore: bool, complete: bool, asked: seq<Point>)
    requires asked <= Plan(kind, restore, complete)
    ensures complete ==> !Changes(asked)
    ensures kind == EditPort ==> Launch !in asked
  {
  }

  /**
   * Nothing is changed, asked for or settled while another recorded container may still be there, or while
   * the one that is there has a configuration this operation never confirmed.
   */
  lemma ActsOnlyOnConclusiveEvidence(
    c: Cell, d: Cell, taken: set<Endpoint>, op: string, w: World, action: Action, r: Outcome, asked: seq<Point>)
    requires op in c.ops && Recovered(c, d, taken, op, w, action, r, asked)
    requires r.Completed? || asked != [] || d != c
    ensures w.strayGone
    ensures w.container.Some? ==>
      exists s :: OriginalOf(c, op) <= s <= c.ops[op].newSpec.GetOr(0) && w.matches(s)
  {
    hide Concluded, Settlable, Inspected, Already, Passed, Plan, ToldSince;
  }

  /** Without a command to change anything, only what is already wanted and in its wanted state is settled. */
  lemma ReconcileOnlyWhatIsThere(
    c: Cell, d: Cell, taken: set<Endpoint>, op: string, w: World, action: Action, r: Outcome, asked: seq<Point>)
    requires op in c.ops && Recovered(c, d, taken, op, w, action, r, asked)
    requires (action.Reconcile? && asked != []) || (r.Completed? && !Changes(asked))
    ensures w.container.Some? && w.runtime == (if c.ops[op].kind == EditPort then Stopped else Ready)
    ensures var original, candidate := OriginalOf(c, op), c.ops[op].newSpec.GetOr(0);
      exists s :: s in {original, candidate} && w.matches(s) && forall q | original <= q < s :: !w.matches(q)
  {
    hide Concluded, Settlable, Inspected, Passed, Plan, Recognized, ToldSince;
    var o := c.ops[op];
    var v := Judge(o, action, w, OriginalOf(c, op), o.newSpec.GetOr(0));
    if v.Go? && !v.complete {
      if action.Other? { ConfirmedRow(c, taken, op, action.candidate, action.ports); }
      FullPlanChanges(o.kind, v.restore, w, asked);
    }
  }

  lemma FullPlanChanges(kind: Kind, restore: bool, w: World, asked: seq<Point>)
    ensures Passed(w, Plan(kind, restore, false), asked, None) ==> Changes(asked)
  {
    if Passed(w, Plan(kind, restore, false), asked, None) {
      assert Plan(kind, restore, false)[if restore then 1 else 2] == Recreate;
    }
  }

  /** What is settled was looked at last, and nothing on the way went wrong. */
  lemma CompletedWasSeen(
    c: Cell, d: Cell, taken: set<Endpoint>, op: string, w: World, action: Action, r: Outcome, asked: seq<Point>)
    requires op in c.ops && Recovered(c, d, taken, op, w, action, r, asked) && r.Completed?
    ensures asked != [] && asked[|asked| - 1] == Look && forall i | 0 <= i < |asked| :: w.answers(asked[i]).None?
  {
    hide Concluded, Settlable, Inspected, Recognized, Already, ToldSince;
  }

  /**
   * Every command of a recovery has left its own step, told truly and in a new attempt; whatever was open
   * before counts as unknown, nothing else of the old steps changes, and without a look at the engine
   * nothing is recorded.
   */
  lemma EveryCommandIsRecorded(
    c: Cell, d: Cell, taken: set<Endpoint>, op: string, w: World, action: Action, r: Outcome, asked: seq<Point>)
    requires op in c.ops && Recovered(c, d, taken, op, w, action, r, asked) && (asked != [] || r.Completed?)
    requires Journal.Numbered(c.ops[op].steps)
    ensures op in d.ops && d.ops[op].attempt == c.ops[op].attempt + 1
    ensures var o, steps := c.ops[op], d.ops[op].steps;
      && |steps| == |o.steps| + |Commands(asked)|
      && (forall k | k in o.steps ::
           k in steps && steps[k] == if o.steps[k].outcome.Some? then o.steps[k] else o.steps[k].(outcome := Some(StepUnknown)))
      && forall i | |o.steps| < i <= |steps| ::
           i in steps && TrueStep(w, o.attempt + 1, steps[i], Commands(asked)[i - |o.steps| - 1])
  {
    hide TrueStep, Commands, Recovered;
    RecoveryTold(c, d, taken, op, w, action, r, asked);
    var o := c.ops[op];
    assert |Doubted(o, |o.steps| + 1).steps| == |o.steps| by { assert Doubted(o, |o.steps| + 1).steps.Keys == o.steps.Keys; }
  }

  lemma RecoveryTold(
    c: Cell, d: Cell, taken: set<Endpoint>, op: string, w: World, action: Action, r: Outcome, asked: seq<Point>)
    requires op in c.ops && Recovered(c, d, taken, op, w, action, r, asked) && (asked != [] || r.Completed?)
    ensures op in d.ops && ToldSince(w, c.ops[op], d.ops[op], asked)
  {
    hide Concluded, Settlable, Inspected, Recognized, Already, Passed, Plan, ToldSince, LastTrouble, ConfirmPorts;
    if action.Other? {
      ConfirmedRow(c, taken, op, action.candidate, action.ports);
      var confirmed := ConfirmPorts(c, taken, op, action.candidate, action.ports);
      if op in d.ops && confirmed.Ok? {
        ToldBefore(w, c.ops[op], confirmed.value.ops[op], d.ops[op], asked);
      }
    }
  }

  lemma ToldBefore(w: World, before: Operation, between: Operation, after: Operation, asked: seq<Point>)
    requires StepsStay(before, between)
    ensures ToldSince(w, between, after, asked) ==> ToldSince(w, before, after, asked)
  {
    hide Told;
    assert Doubted(before, |before.steps| + 1).steps == Doubted(between, |between.steps| + 1).steps;
  }

  /** Every reservation, every saved revision and the revision in effect are as before. */
  ghost predicate NothingGone(c: Cell, d: Cell) {
    && d.applied == c.applied && d.revision == c.revision && d.lifecycle == c.lifecycle
    && (forall id | id in c.reservations :: id in d.reservations && d.reservations[id] == c.reservations[id])
    && (forall s | s in c.specs :: s in d.specs && d.specs[s] == c.specs[s])
  }

  /** Unless it completes, a recovery gives up no port, no saved binding and no revision in effect. */
  lemma NothingIsGivenUp(
    c: Cell, d: Cell, taken: set<Endpoint>, op: string, w: World, action: Action, r: Outcome, asked: seq<Point>)
    requires op in c.ops && Recovered(c, d, taken, op, w, action, r, asked) && !r.Completed?
    ensures NothingGone(c, d)
    ensures op in d.ops && (Unresolved(c.ops[op]) ==> Unresolved(d.ops[op]))
  {
    hide Judge, Passed, Plan, Settlable, Inspected, ConfirmPorts, Overwritten, ExactlyBound, LastTrouble, ToldSince;
    if action.Other? {
      ConfirmKeepsRows(c, taken, op, c.ops[op].newSpec.GetOr(0), action.ports);
      ConfirmedRow(c, taken, op, c.ops[op].newSpec.GetOr(0), action.ports);
    }
  }

  lemma ConfirmKeepsRows(c: Cell, taken: set<Endpoint>, op: string, candidate: nat, ports: Proposal)
    requires op in c.ops
    ensures var r := ConfirmPorts(c, taken, op, candidate, ports); r.Ok? ==> NothingGone(c, r.value)
  {
    hide Acceptable, ToMap;
  }

  /**
   * No undecided edit is ever stuck: with an engine that cooperates, trying again brings the candidate
   * into effect and restoring brings back the old bindings, each with exactly its ports reserved.
   */
  lemma NoEditIsStuck(
    c: Cell, d: Cell, taken: set<Endpoint>, op: string, w: World, action: Action, r: Outcome, asked: seq<Point>)
    requires CellOk(c) && op in c.ops && c.ops[op].kind == EditPort && Undecided(c.ops[op].status)
    requires Recovered(c, d, taken, op, w, action, r, asked) && action in {Again, Restore}
    requires w.strayGone && w.published && (forall p :: w.answers(p).None?)
    requires Recognized(w, OriginalOf(c, op), c.ops[op].newSpec.GetOr(0)) && RuntimeOf(w) in {Stopped, Gone}
    ensures r.Completed? && d.applied == (if action == Restore then c.applied else c.ops[op].newSpec)
    ensures d.applied.Some? && d.applied.value in d.specs && ExactlyBound(d.reservations, d.specs[d.applied.value])
  {
    hide CellOk, Passed, Plan, Already, Recognized, Inspected, ExactlyBound, Kept, ToldSince;
    EditIsPending(c, op);
  }
}
