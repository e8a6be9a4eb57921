/** The recovery itself, over the ledger: decide, confirm, and then one recorded step after the other. */
module PortRecovery {
  import opened Wrappers
  import opened LedgerTypes
  import opened PortEdits
  import opened CellInvariant
  import opened PortEditProofs
  import opened InstanceSteps
  import opened LedgerStore
  import opened StoreProofs
  import opened StoreRows
  import opened LedgerObject
  import opened PortRecoverySpec
  import opened PortRecoveryProofs
  import Journal

  class Recovery {
    const ledger: Ledger
    const receipt: Receipt
    const artifact: string
    const w: World
    var sequence: nat
    /** Points passed so far, in order. */
    var asked: seq<Point>

    constructor (ledger: Ledger, receipt: Receipt, artifact: string, w: World)
      requires receipt.instance != "" && artifact != "" && ValidWorld(w)
      ensures this.ledger == ledger && this.receipt == receipt && this.artifact == artifact && this.w == w
      ensures asked == []
    {
      this.ledger, this.receipt, this.artifact, this.w := ledger, receipt, artifact, w;
      sequence, asked := 1, [];
    }

    ghost predicate Here()
      reads ledger
    {
      && ledger.Valid() && Names(ledger.State(), receipt.instance, receipt.operation)
      && receipt.instance != "" && artifact != "" && ValidWorld(w)
    }

    /** May record the next step under the running number. */
    ghost predicate Moving()
      reads ledger, `sequence
    {
      Here() && Runs(Row()) && sequence == |Row().steps| + 1
    }

    function Mine(): Cell
      reads ledger
      requires receipt.instance in ledger.cells
    {
      ledger.cells[receipt.instance]
    }

    function Row(): Operation
      reads ledger
      requires receipt.instance in ledger.cells && receipt.operation in Mine().ops
    {
      Mine().ops[receipt.operation]
    }

    /** Only the operation's row differs from a store. */
    ghost predicate Rewritten(before: Db, o: Operation)
      reads ledger
    {
      && Names(before, receipt.instance, receipt.operation)
      && ledger.State() == At(before, receipt.instance, WithRow(before.cells[receipt.instance], receipt.operation, o))
    }

    lemma RewrittenRow(before: Db, o: Operation)
      requires Rewritten(before, o)
      ensures Names(ledger.State(), receipt.instance, receipt.operation) && Row() == o
      ensures Mine() == WithRow(before.cells[receipt.instance], receipt.operation, o)
    {
    }

    lemma RowIsSound()
      requires Here()
      ensures Journal.Sound(Row()) && CellOk(Mine())
    {
      hide SpecsOk, ReservationsOk, CommittedIsBase, Journal.Sound, PortsApart, Owned, ReceiptsOk;
      OneCell(ledger.State(), receipt.instance);
    }

    method DoubtStep(ghost start: Db, ghost o: Operation, k: nat)
      requires ledger.Valid() && Rewritten(start, Doubted(o, k)) && Undecided(o.status)
      requires Journal.Numbered(o.steps) && 1 <= k <= |o.steps|
      modifies ledger
      ensures ledger.Valid() && Rewritten(start, Doubted(o, k + 1))
    {
      hide Journal.Apply, Journal.Numbered, DbOk, Doubted, At, WithRow, Next, LedgerStore.Apply;
      DoubtNext(o, k);
      RewrittenRow(start, Doubted(o, k));
      if Row().steps[k].outcome !in {None, Some(StepUnknown)} { return; }
      WriteIs(start, receipt.instance, receipt.operation, Doubted(o, k), Journal.Reconcile(k, StepUnknown),
              Doubted(o, k + 1));
      var closed := ledger.ReconcileStep(receipt.operation, k, StepUnknown);
    }

    /** Steps whose end nobody saw are settled as unknown, one by one. */
    method CloseDoubts()
      requires Here() && Undecided(Row().status)
      modifies ledger
      ensures Here() && Rewritten(old(ledger.State()), Doubted(old(Row()), |old(Row()).steps| + 1))
    {
      hide Journal.AttemptsRise, Journal.Numbered, DbOk, Doubted, At, WithRow, Undecided, CellOk, Hex64, ValidWorld;
      RowIsSound();
      ghost var start, o := ledger.State(), Row();
      SameAt(start, receipt.instance, receipt.operation);
      DoubtNone(o);
      for k := 1 to |Row().steps| + 1
        invariant ledger.Valid() && Rewritten(start, Doubted(o, k))
      {
        DoubtStep(start, o, k);
      }
      RewrittenRow(start, Doubted(o, |o.steps| + 1));
    }

    method Record(step: Step)
      requires Moving() && step.attempt == Row().attempt && step.resource != ""
      modifies ledger
      ensures ledger.Valid() && Rewritten(old(ledger.State()), Opened(old(Row()), step))
    {
      hide Journal.Apply, Journal.Sound, DbOk, Runs, At, WithRow, Next, LedgerStore.Apply, Opened;
      ghost var o, start := Row(), ledger.State();
      SameAt(start, receipt.instance, receipt.operation);
      StepRecorded(o, step);
      WriteIs(start, receipt.instance, receipt.operation, o,
              Journal.Record(sequence, o.attempt, step.command, step.resource, step.expected), Opened(o, step));
      var recorded := ledger.RecordStep(
        receipt.operation, sequence, Row().attempt, step.command, step.resource, step.expected);
    }

    method Finish(ghost start: Db, ghost o: Operation, step: Step)
      requires ledger.Valid() && Rewritten(start, Opened(o, step)) && Runs(o) && sequence == |o.steps| + 1
      requires step.outcome.Some? && step.attempt == o.attempt && step.resource != ""
      requires receipt.instance != "" && artifact != "" && ValidWorld(w)
      modifies ledger, `sequence
      ensures Moving() && Rewritten(start, Grown(o, step))
    {
      hide Journal.Apply, Journal.Sound, DbOk, Runs, At, WithRow, Next, LedgerStore.Apply, Opened, Grown, ValidWorld;
      StepRecorded(o, step);
      StepClosed(o, step);
      WriteIs(start, receipt.instance, receipt.operation, Opened(o, step),
              Journal.Finish(sequence, step.outcome.value), Grown(o, step));
      var finished := ledger.FinishStep(receipt.operation, sequence, step.outcome.value);
      sequence := sequence + 1;
      RewrittenRow(start, Grown(o, step));
    }

    /** Records the step, sends its command, and closes it with what came of it. */
    method RunEffect(command: Command, resource: string, expects: Expected, point: Point) returns (trouble: Option<Trouble>)
      requires Moving() && resource != ""
      modifies ledger, `sequence, `asked
      ensures Moving() && asked == old(asked) + [point] && trouble == w.answers(point)
      ensures Rewritten(old(ledger.State()), Grown(old(Row()), Closing(old(Row()), command, resource, expects, trouble)))
      ensures Row() == old(Row()).(steps := old(Row()).steps[|old(Row()).steps| + 1 := Step(
        old(Row()).attempt, command, resource, expects, Some(if trouble.None? then StepSucceeded else StepUnknown))])
    {
      hide DbOk, Runs, At, WithRow, Opened, Grown, ValidWorld, Rewritten;
      ghost var o, start := Row(), ledger.State();
      var step := Closing(Row(), command, resource, expects, w.answers(point));
      Record(step);
      trouble := Ask(point);
      Finish(start, o, step);
      GrownRow(start, o, step);
    }

    lemma GrownRow(before: Db, o: Operation, step: Step)
      requires Rewritten(before, Grown(o, step))
      ensures Names(ledger.State(), receipt.instance, receipt.operation)
      ensures Row() == o.(steps := o.steps[|o.steps| + 1 := step])
    {
      RewrittenRow(before, Grown(o, step));
    }

    /** Every command since a store was as it was has left its own true step. */
    ghost predicate Telling(start: Db)
      reads ledger, `asked
    {
      && Names(start, receipt.instance, receipt.operation) && Names(ledger.State(), receipt.instance, receipt.operation)
      && var base := start.cells[receipt.instance].ops[receipt.operation];
      && Row().attempt == base.attempt && Told(w, base.steps, base.attempt, Row().steps, asked)
    }

    /** A look that leaves no step. */
    method Check(ghost start: Db, point: Point) returns (trouble: Option<Trouble>)
      requires Telling(start) && CommandAt(point).None?
      modifies `asked
      ensures Telling(start) && asked == old(asked) + [point] && trouble == w.answers(point)
    {
      hide Told;
      ghost var base := start.cells[receipt.instance].ops[receipt.operation];
      LookedAt(w, base.steps, base.attempt, Row().steps, asked, point);
      trouble := Ask(point);
    }

    method Ask(point: Point) returns (trouble: Option<Trouble>)
      modifies `asked
      ensures asked == old(asked) + [point] && trouble == w.answers(point)
    {
      asked := asked + [point];
      trouble := w.answers(point);
    }

    /** The same, for a step that follows others of this recovery. */
    method Proceed(ghost start: Db, command: Command, resource: string, expects: Expected, point: Point)
      returns (trouble: Option<Trouble>)
      requires Moving() && resource != "" && CommandAt(point) == Some(command)
      requires Advanced(start, ledger.State(), receipt.instance, receipt.operation) && Telling(start)
      modifies ledger, `sequence, `asked
      ensures Moving() && asked == old(asked) + [point] && trouble == w.answers(point)
      ensures Advanced(start, ledger.State(), receipt.instance, receipt.operation) && Telling(start)
      ensures old(Mine()).storage == Overwritten(start.cells[receipt.instance].storage)
        ==> Mine().storage == Overwritten(start.cells[receipt.instance].storage)
    {
      hide DbOk, Runs, At, WithRow, Grown, ValidWorld, Advanced, Told;
      ghost var before, o, told := ledger.State(), Row(), asked;
      NextIsFree(o);
      trouble := RunEffect(command, resource, expects, point);
      OneMoreTold(w, start.cells[receipt.instance].ops[receipt.operation].steps, o.attempt, o.steps, told, point,
                  Closing(o, command, resource, expects, trouble));
      GrownAdvances(before, receipt.instance, receipt.operation, Closing(
        before.cells[receipt.instance].ops[receipt.operation], command, resource, expects, trouble));
      AdvancedTrans(start, before, ledger.State(), receipt.instance, receipt.operation);
    }

    /** A stopped container of the wanted configuration takes the place of whatever was there. */
    method Rebuild(ghost start: Db, restore: bool) returns (trouble: Option<Trouble>)
      requires Moving() && Advanced(start, ledger.State(), receipt.instance, receipt.operation) && asked == []
      requires Telling(start)
      modifies ledger, `sequence, `asked
      ensures Moving() && Advanced(start, ledger.State(), receipt.instance, receipt.operation) && Telling(start)
      ensures Passed(w, Rebuilding(restore), asked, trouble)
    {
      hide DbOk, Runs, ValidWorld, Advanced, Names, Told;
      if !restore {
        trouble := Proceed(start, GenerateArtifact, artifact, ArtifactReady, Generate);
        if trouble.Some? { return; }
      }
      trouble := Check(start, PortsBefore);
      if trouble.Some? { return; }
      trouble := Proceed(start, ComposeCreate, receipt.instance, ContainerCreated, Recreate);
      if trouble.Some? { return; }
      trouble := Check(start, Verify);
    }

    /** Storage is marked before the start, which is the only command that could initialize it. */
    method Start(ghost start: Db) returns (trouble: Option<Trouble>, ghost part: seq<Point>)
      requires Moving() && Advanced(start, ledger.State(), receipt.instance, receipt.operation) && Telling(start)
      requires Creates(Row().kind)
      modifies ledger, `sequence, `asked
      ensures Moving() && Advanced(start, ledger.State(), receipt.instance, receipt.operation) && Telling(start)
      ensures asked == old(asked) + part && Passed(w, STARTING, part, trouble)
      ensures Launch in part ==> Mine().storage == Overwritten(start.cells[receipt.instance].storage)
    {
      hide DbOk, Advanced, Overwritten, Kept, Runs, Names, Hex64, Journal.Apply, LedgerStore.Apply, Told;
      WorldNames(w);
      part := [PortsAgain];
      trouble := Check(start, PortsAgain);
      if trouble.Some? { return; }
      Mark(start);
      part := part + [Launch];
      trouble := Proceed(start, ComposeStart, w.created, ContainerRunning, Launch);
      if trouble.Some? { return; }
      part := part + [Wait];
      trouble := Check(start, Wait);
    }

    method Mark(ghost start: Db)
      requires Moving() && Advanced(start, ledger.State(), receipt.instance, receipt.operation) && Telling(start)
      requires Creates(Row().kind)
      modifies ledger
      ensures Moving() && Advanced(start, ledger.State(), receipt.instance, receipt.operation) && Telling(start)
      ensures Mine().storage == Overwritten(start.cells[receipt.instance].storage)
    {
      hide DbOk, ValidWorld, Journal.Sound, Journal.AnyOpen, Told;
      ghost var before := ledger.State();
      OverwriteAdvances(before, receipt.instance, receipt.operation);
      ledger.OverwriteInitialization(receipt.operation);
      AdvancedTrans(start, before, ledger.State(), receipt.instance, receipt.operation);
    }

    /** The last look, which decides whether the recovery may end. */
    method Observe(ghost start: Db, container: string) returns (trouble: Option<Trouble>)
      requires Moving() && container != "" && Advanced(start, ledger.State(), receipt.instance, receipt.operation)
      requires Telling(start)
      modifies ledger, `sequence, `asked
      ensures Moving() && asked == old(asked) + [Look] && trouble == w.answers(Look)
      ensures Advanced(start, ledger.State(), receipt.instance, receipt.operation) && Telling(start)
      ensures Mine().storage == old(Mine()).storage
      ensures trouble.None? ==> Saw(Row(), container, Sight(Mine(), receipt.operation))
    {
      hide DbOk, ValidWorld, Advanced, Journal.OpenAtEnd, Journal.AttemptsRise, Journal.Numbered, Told;
      ghost var before, o, told := ledger.State(), Row(), asked;
      NextIsFree(o);
      var expects := Sight(Mine(), receipt.operation);
      trouble := RunEffect(Command.Observe, container, expects, Look);
      ghost var step := Closing(o, Command.Observe, container, expects, trouble);
      RewrittenRow(before, Grown(o, step));
      OneMoreTold(w, start.cells[receipt.instance].ops[receipt.operation].steps, o.attempt, o.steps, told, Look, step);
      GrownAdvances(before, receipt.instance, receipt.operation, step);
      AdvancedTrans(start, before, ledger.State(), receipt.instance, receipt.operation);
      SeenLast(o, step);
    }

    /** Every command of the recovery, in order, up to the first that does not work. */
    method Act(ghost start: Db, restore: bool, complete: bool) returns (trouble: Option<Trouble>, container: string)
      requires Moving() && start == ledger.State() && asked == [] && Recovers(Row().kind)
      requires complete ==> w.container.Some?
      modifies ledger, `sequence, `asked
      ensures Moving() && Advanced(start, ledger.State(), receipt.instance, receipt.operation) && Telling(start)
      ensures Passed(w, Plan(old(Row()).kind, restore, complete), asked, trouble) && Hex64(container)
      ensures trouble.None? ==> Saw(Row(), container, Sight(Mine(), receipt.operation))
      ensures trouble.None? && !complete && Creates(old(Row()).kind) ==> Mine().storage == Overwritten(old(Mine()).storage)
    {
      hide DbOk, Advanced, Runs, Saw, Overwritten, Hex64, Passed, LedgerStore.Apply, Told;
      WorldNames(w);
      NothingTold(w, Row().steps, Row().attempt);
      AdvancedRefl(start, receipt.instance, receipt.operation);
      container := if complete then w.container.value else w.created;
      ghost var done := if complete then [] else Rebuilding(restore) + (if Row().kind == EditPort then [] else STARTING);
      if complete {
        PassedNone(w);
      } else {
        trouble := Replace(start, restore);
        if trouble.Some? { PassedEnd(w, done, asked, [Look], trouble); return; }
      }
      ghost var before := asked;
      trouble := Observe(start, container);
      PassedOne(w, Look);
      PassedOn(w, done, before, [Look], [Look], trouble);
    }

    /** A new container of the wanted configuration, started again if the instance was being created. */
    method Replace(ghost start: Db, restore: bool) returns (trouble: Option<Trouble>)
      requires Moving() && Advanced(start, ledger.State(), receipt.instance, receipt.operation) && asked == []
      requires Telling(start)
      requires Recovers(Row().kind)
      modifies ledger, `sequence, `asked
      ensures Moving() && Advanced(start, ledger.State(), receipt.instance, receipt.operation) && Telling(start)
      ensures Passed(
        w, Rebuilding(restore) + (if old(Row()).kind == EditPort then [] else STARTING), asked, trouble)
      ensures trouble.None? && Creates(old(Row()).kind) ==>
        Mine().storage == Overwritten(start.cells[receipt.instance].storage)
    {
      hide DbOk, Runs, Overwritten, Hex64, Passed, LedgerStore.Apply, Told;
      ghost var kind := Row().kind;
      trouble := Rebuild(start, restore);
      ghost var rebuilt, rest := asked, if kind == EditPort then [] else STARTING;
      if trouble.Some? { PassedEnd(w, Rebuilding(restore), rebuilt, rest, trouble); return; }
      if Row().kind == EditPort {
        assert Rebuilding(restore) + rest == Rebuilding(restore);
        return;
      }
      ghost var part;
      trouble, part := Start(start);
      PassedOn(w, Rebuilding(restore), rebuilt, STARTING, part, trouble);
      StartPasses(w, part, trouble);
    }

    /** Closes what is in doubt and starts the next attempt. */
    method Begin(phase: string)
      requires Here() && Undecided(Row().status) && phase != ""
      modifies ledger, `sequence
      ensures Moving() && ledger.State() == At(old(ledger.State()), receipt.instance, Mine())
      ensures Kept(old(Mine()), Mine(), receipt.operation) && Mine().storage == old(Mine()).storage
      ensures Row().phase == phase && Row().attempt == old(Row()).attempt + 1
      ensures Row().steps == Doubted(old(Row()), |old(Row()).steps| + 1).steps
    {
      hide DbOk, Doubted, Journal.Sound, ValidWorld, Journal.Apply, LedgerStore.Apply, Next, Runs, Journal.AnyOpen, CellOk, Hex64,
        Journal.Numbered, Journal.SameRequest;
      ghost var start, o := ledger.State(), Row();
      RowIsSound();
      sequence := |Row().steps| + 1;
      CloseDoubts();
      ghost var doubted := Doubted(o, |o.steps| + 1);
      DoubtedIsClosed(o);
      DoubtedOnlySteps(o, |o.steps| + 1);
      RewrittenRow(start, doubted);
      RetryAccepted(doubted, phase);
      ghost var after := doubted.(attempt := doubted.attempt + 1, status := Executing, phase := phase);
      WriteIs(start, receipt.instance, receipt.operation, doubted, Journal.Retry(phase), after);
      var attempt := ledger.Retry(receipt.operation, phase);
      RewrittenRow(start, after);
      RowKept(start.cells[receipt.instance], receipt.operation, after);
    }

    /** Notes why the recovery stopped. */
    method Fail(status: Status, phase: string)
      requires Here() && Undecided(status) && Unresolved(Row()) && phase != ""
      modifies ledger
      ensures Here() && ledger.State() == At(old(ledger.State()), receipt.instance, Mine())
      ensures Kept(old(Mine()), Mine(), receipt.operation) && Mine().storage == old(Mine()).storage
      ensures Row() == old(Row()).(status := status, phase := phase)
    {
      hide DbOk, ValidWorld, LedgerStore.Apply, Next;
      ghost var start, o := ledger.State(), Row();
      SameAt(start, receipt.instance, receipt.operation);
      WriteIs(start, receipt.instance, receipt.operation, o, Journal.SetStatus(status, phase),
              o.(status := status, phase := phase));
      var noted := ledger.SetStatus(receipt.operation, status, phase);
      RewrittenRow(start, o.(status := status, phase := phase));
    }

    /** The transaction that ends the recovery. */
    method Settle(ghost c: Cell, restore: bool, container: string) returns (ended: Result<(), Conflict>)
      requires Here() && Kept(c, Mine(), receipt.operation) && Hex64(container)
      requires restore ==> receipt.operation in Mine().pending
      modifies ledger
      ensures Here() && ledger.State() == At(old(ledger.State()), receipt.instance, Mine())
      ensures ended.Err? ==> ledger.State() == old(ledger.State())
      ensures ended.Ok? ==> Concluded(c, Mine(), receipt.operation, restore, Completed(container))
      ensures CanSettle(old(Mine()), receipt.operation, container, restore, w.published) ==> ended.Ok?
      ensures receipt.operation in old(Mine()).ops && StepsStay(old(Row()), Row())
    {
      hide DbOk, ValidWorld, FinishChange, InstanceSteps.CompleteReady, CellOk, Overwritten, ExactlyBound, Hex64, Kept;
      ghost var d := Mine();
      RowIsSound();
      CellStays(ledger.State(), receipt.instance);
      if receipt.operation in Mine().pending {
        ended := ledger.FinishChange(receipt.operation, container, restore, w.published);
        if ended.Ok? { ConcludedByChange(c, d, receipt.operation, container, restore, w.published); }
      } else {
        ended := ledger.CompleteReady(receipt.operation, container);
        if ended.Ok? { ConcludedByReady(c, d, receipt.operation, container); }
      }
    }

    /** What the last transaction refuses is noted as a failure. */
    method End(ghost c: Cell, restore: bool, container: string, phase: string) returns (r: Outcome)
      requires Here() && Row().status == Executing && Kept(c, Mine(), receipt.operation)
      requires restore ==> receipt.operation in Mine().pending
      requires phase != "" && Hex64(container)
      modifies ledger
      ensures Here() && ledger.State() == At(old(ledger.State()), receipt.instance, Mine())
      ensures Concluded(c, Mine(), receipt.operation, restore, r) && (r.Refused? || r == Completed(container))
      ensures CanSettle(old(Mine()), receipt.operation, container, restore, w.published) ==> r.Completed?
      ensures StepsStay(old(Row()), Row())
    {
      hide DbOk, ValidWorld, CanSettle, ExactlyBound, Overwritten, Hex64;
      ghost var d := Mine();
      var ended := Settle(c, restore, container);
      if ended.Ok? { return Completed(container); }
      Fail(Failed, phase);
      KeptTrans(c, d, Mine(), receipt.operation);
      r := Refused(ended.error);
    }

    /** The next attempt, up to its last look. */
    method Attempt(restore: bool, complete: bool, phase: string) returns (trouble: Option<Trouble>, container: string)
      requires Here() && Undecided(Row().status) && Recovers(Row().kind) && asked == [] && phase != ""
      requires complete ==> w.container.Some?
      modifies ledger, this
      ensures Here() && ledger.State() == At(old(ledger.State()), receipt.instance, Mine())
      ensures Passed(w, Plan(old(Row()).kind, restore, complete), asked, trouble) && Hex64(container)
      ensures Kept(old(Mine()), Mine(), receipt.operation) && Row().status == Executing && Row().phase == phase
      ensures trouble.None? ==> Saw(Row(), container, Sight(Mine(), receipt.operation))
      ensures trouble.None? && !complete && Creates(old(Row()).kind) ==> Mine().storage == Overwritten(old(Mine()).storage)
      ensures ToldSince(w, old(Row()), Row(), asked)
    {
      hide DbOk, ValidWorld, Overwritten, Saw, Advanced, Passed, Plan, Hex64, At, Told, Doubted;
      ghost var c, start := Mine(), ledger.State();
      Begin(phase);
      ghost var begun := ledger.State();
      trouble, container := Act(begun, restore, complete);
      AdvancedKept(c, begun, ledger.State(), receipt.instance, receipt.operation);
      AtAt(start, receipt.instance, begun.cells[receipt.instance], Mine());
    }

    /** A recovery that was decided on, from its next attempt to its end. */
    method Carry(restore: bool, complete: bool) returns (r: Outcome, trouble: Option<Trouble>)
      requires Here() && Undecided(Row().status) && Recovers(Row().kind) && asked == []
      requires (complete ==> w.container.Some?) && (restore ==> Row().kind == EditPort)
      requires restore ==> receipt.operation in Mine().pending
      modifies ledger, this
      ensures Here() && ledger.State() == At(old(ledger.State()), receipt.instance, Mine())
      ensures Passed(w, Plan(old(Row()).kind, restore, complete), asked, trouble)
      ensures Concluded(old(Mine()), Mine(), receipt.operation, restore, r)
      ensures if trouble.Some? then r == Troubled(trouble.value) else r.Completed? || r.Refused?
      ensures trouble.None? && w.published && Settlable(old(Mine()), receipt.operation, complete) ==> r.Completed?
      ensures ToldSince(w, old(Row()), Row(), asked)
    {
      hide Told, Doubted, DbOk, ValidWorld, ExactlyBound, Overwritten, Saw, Passed, Plan, CanSettle, CellOk, Hex64,
        AllPresent, At, Kept;
      ghost var c, start := Mine(), ledger.State();
      var phase := PhaseOf(restore, receipt.operation in Mine().pending);
      var container;
      trouble, container := Attempt(restore, complete, phase);
      ghost var d := Mine();
      KeptRequest(c, d, receipt.operation);
      if trouble.Some? {
        Fail(StatusOf(trouble.value), phase);
        AtAt(start, receipt.instance, d, Mine());
        KeptTrans(c, d, Mine(), receipt.operation);
        return Troubled(trouble.value), trouble;
      }
      if w.published && Settlable(c, receipt.operation, complete) {
        RowIsSound();
        SettlableSettles(c, d, receipt.operation, container, restore, complete);
      }
      r := End(c, restore, container, phase);
      AtAt(start, receipt.instance, d, Mine());
    }

    // Deciding --------------------------------------------------------------------------------------

    /** The least of the confirmed revisions whose configuration the container has. */
    method FindMatching(original: nat, candidate: nat) returns (found: Option<nat>)
      ensures FirstMatch(w, original, candidate, found)
    {
      var r := original;
      while r <= candidate
        invariant original <= r && forall q | original <= q < r :: !w.matches(q)
      {
        if w.matches(r) { return Some(r); }
        r := r + 1;
      }
      found := None;
    }

    method Decide(o: Operation, action: Action, original: nat, candidate: nat) returns (v: Verdict)
      ensures v == Judge(o, action, w, original, candidate)
    {
      var restore := Restores(o, action);
      if restore && o.kind != EditPort { return Reject; }
      if !w.strayGone { return Hold; }
      var matching := None;
      if w.container.Some? {
        matching := FindMatching(original, candidate);
        if matching.None? { return Hold; }
      }
      var target := if restore then original else candidate;
      var complete := matching == Some(target) && w.runtime == Wanted(o.kind);
      if action == Action.Reconcile && !complete { return Hold; }
      if !complete && RuntimeOf(w) !in {Stopped, Gone} { return Hold; }
      v := Go(restore, complete);
    }

    /** Looks again at every port that moves. */
    method InspectMoved(candidate: nat, ports: Proposal) returns (clear: bool)
      requires Here()
      ensures clear <==> Inspected(Mine(), w.refused, candidate, ports)
    {
      hide DbOk, ValidWorld;
      var before, rs := Ports(Mine(), candidate), Mine().reservations;
      for i := 0 to |ports|
        invariant Inspected(Mine(), w.refused, candidate, ports[..i])
      {
        var (slot, port) := ports[i];
        var at := Endpoint(LOOPBACK, port.at.host);
        var stays := slot in before && before[slot].at.host == port.at.host;
        var reserved := exists id :: id in rs && rs[id].at == at && Active(rs[id]);
        assert HasActive(rs, at) <==> reserved;
        if !stays && (port.at.host in w.refused || reserved) { return false; }
        assert ports[..i + 1] == ports[..i] + [ports[i]];
      }
      assert ports[..|ports|] == ports;
      clear := true;
    }

    /** Suggestions change nothing but the status, and only when there is something to suggest. */
    method Offer() returns (r: Outcome)
      requires Here() && Undecided(Row().status)
      modifies ledger
      ensures Here() && ledger.State() == At(old(ledger.State()), receipt.instance, Mine())
      ensures match w.conflicts
        case Err(trouble) => r == Troubled(trouble) && Mine() == old(Mine())
        case Ok(slots) =>
          if slots == {} then r == Outcome.Held && Mine() == old(Mine())
          else r == Proposed(slots) && Waits(old(Mine()), Mine(), receipt.operation, [])
    {
      hide DbOk, ValidWorld;
      CellStays(ledger.State(), receipt.instance);
      if w.conflicts.Err? { return Troubled(w.conflicts.error); }
      if w.conflicts.value == {} { return Outcome.Held; }
      Fail(AwaitingDecision, "port_conflict");
      r := Proposed(w.conflicts.value);
    }

    /** Holds the ports of another choice, after a fresh look at all that move. */
    method ConfirmOther(candidate: nat, ports: Proposal) returns (problem: Option<Outcome>)
      requires Here() && Undecided(Row().status) && Recovers(Row().kind) && ReadError(ledger.State(), receipt).None?
      modifies ledger
      ensures Here() && ledger.State() == At(old(ledger.State()), receipt.instance, Mine())
      ensures var c, op := old(Mine()), receipt.operation;
        var taken := Taken(old(ledger.State()), c.scope, receipt.instance);
        if w.unseen.Some? then
          problem == Some(Troubled(w.unseen.value)) && Mine() == c
        else if !Inspected(c, w.refused, candidate, ports) then
          problem == Some(Troubled(PortTaken)) && Waits(c, Mine(), op, [])
        else
          match ConfirmPorts(c, taken, op, candidate, ports)
          case Err(e) => problem == Some(Refused(e)) && Mine() == c
          case Ok(confirmed) => problem == None && Mine() == confirmed
    {
      hide DbOk, ValidWorld, StillConfirmed, Inspected, ConfirmPorts, Taken;
      CellStays(ledger.State(), receipt.instance);
      if w.unseen.Some? { return Some(Troubled(w.unseen.value)); }
      var clear := InspectMoved(candidate, ports);
      if !clear {
        Fail(AwaitingDecision, "port_conflict");
        return Some(Troubled(PortTaken));
      }
      problem := Rehold(candidate, ports);
    }

    /** The confirming transaction; what it confirmed is read again, which never fails. */
    method Rehold(candidate: nat, ports: Proposal) returns (problem: Option<Outcome>)
      requires Here() && Undecided(Row().status) && Recovers(Row().kind) && ReadError(ledger.State(), receipt).None?
      requires Inspected(Mine(), w.refused, candidate, ports)
      modifies ledger
      ensures Here() && ledger.State() == At(old(ledger.State()), receipt.instance, Mine())
      ensures
        var c := old(Mine());
        match ConfirmPorts(c, Taken(old(ledger.State()), c.scope, receipt.instance), receipt.operation, candidate, ports)
        case Err(e) => problem == Some(Refused(e)) && Mine() == c
        case Ok(confirmed) => problem == None && Mine() == confirmed
    {
      hide DbOk, ValidWorld, StillConfirmed, Inspected, ConfirmPorts, Taken, SameConfirmation;
      CellStays(ledger.State(), receipt.instance);
      ReadIsMatched(ledger.State(), receipt);
      ConfirmedRow(Mine(), Taken(ledger.State(), Mine().scope, receipt.instance), receipt.operation, candidate, ports);
      var confirmed := ledger.ConfirmPortRecovery(receipt, candidate, ports, w.refused);
      if confirmed.Err? { return Some(Refused(confirmed.error)); }
      ReadFailsOnReceiptOnly(ledger.State(), receipt);
      var unread := ReadError(Db(ledger.cells, ledger.owner, ledger.receipts), receipt);
      assert unread.None?;
      problem := None;
    }

    /** Carries on with the confirmed ports, or holds if there is nothing to change or to finish. */
    method Resume(restore: bool, complete: bool) returns (r: Outcome)
      requires Here() && Undecided(Row().status) && Recovers(Row().kind) && asked == []
      requires (complete ==> w.container.Some?) && (restore ==> Row().kind == EditPort)
      requires receipt.operation in Mine().pending || complete
      modifies ledger, this
      ensures Here() && ledger.State() == At(old(ledger.State()), receipt.instance, Mine())
      ensures Ran(old(Mine()), Mine(), receipt.operation, w, restore, complete, r, asked)
    {
      hide DbOk, ValidWorld, Concluded, Plan, Settlable, At, CellOk, ToldSince;
      RowIsSound();
      EditIsPending(Mine(), receipt.operation);
      var trouble;
      r, trouble := Carry(restore, complete);
      assert trouble == LastTrouble(w, asked);
    }

    method RecoverLocked(action: Action) returns (r: Outcome)
      requires Here() && Undecided(Row().status) && Recovers(Row().kind) && asked == []
      requires ReadError(ledger.State(), receipt).None?
      modifies ledger, this
      ensures Here() && ledger.State() == At(old(ledger.State()), receipt.instance, Mine())
      ensures Recovered(old(Mine()), Mine(), Taken(old(ledger.State()), old(Mine()).scope, receipt.instance),
                        receipt.operation, w, action, r, asked)
    {
      hide DbOk, ValidWorld, Ran, Inspected, ConfirmPorts, Taken, At, StillConfirmed, CellOk;
      ghost var start := ledger.State();
      CellStays(start, receipt.instance);
      var c := Mine();
      var candidate := Row().newSpec.GetOr(0);
      var original := OriginalOf(c, receipt.operation);
      var verdict := Decide(Row(), action, original, candidate);
      if verdict.Hold? { return Outcome.Held; }
      if verdict.Reject? { return Rejected; }
      JudgedComplete(Row(), action, w, original, candidate);
      if action.Propose? {
        r := Offer();
        return;
      }
      if action.Other? {
        if verdict.complete || action.candidate != candidate { return Rejected; }
        var problem := ConfirmOther(candidate, action.ports);
        if problem.Some? { return problem.value; }
        ConfirmedRow(c, Taken(start, c.scope, receipt.instance), receipt.operation, candidate, action.ports);
        ghost var confirmed := Mine();
        r := Resume(verdict.restore, verdict.complete);
        AtAt(start, receipt.instance, confirmed, Mine());
        return;
      }
      if receipt.operation !in c.pending && !verdict.complete { return Outcome.Held; }
      r := Resume(verdict.restore, verdict.complete);
    }

    /** One whole recovery, which does nothing while the earlier command may still be alive. */
    method Recover(action: Action) returns (r: Outcome)
      requires ledger.Valid() && receipt.instance != "" && artifact != "" && ValidWorld(w) && asked == []
      modifies ledger, this
      ensures ledger.Valid()
      ensures OwnerRow(old(ledger.State()), receipt.operation)
      ensures match Entry(old(ledger.State()), receipt, w)
        case Some(outcome) => r == outcome && ledger.State() == old(ledger.State()) && asked == []
        case None =>
          && Here() && Names(old(ledger.State()), receipt.instance, receipt.operation)
          && ledger.State() == At(old(ledger.State()), receipt.instance, Mine())
          && Recovered(old(ledger.State()).cells[receipt.instance], Mine(),
                       Taken(old(ledger.State()), old(ledger.State()).cells[receipt.instance].scope, receipt.instance),
                       receipt.operation, w, action, r, asked)
    {
      hide CellsOk, PortsApart, ReceiptsOk, ValidWorld, Recovered, Taken, At, StillConfirmed;
      var op := receipt.operation;
      if op !in ledger.owner { return Refused(Missing); }
      var o := ledger.cells[ledger.owner[op]].ops[op];
      if !Unresolved(o) { return Refused(Missing); }
      if !w.quiet || !Recovers(o.kind) || !Undecided(o.status) { return Outcome.Held; }
      var unread := ReadError(Db(ledger.cells, ledger.owner, ledger.receipts), receipt);
      if unread.Some? { return Refused(unread.value); }
      r := RecoverLocked(action);
    }
  }
}
