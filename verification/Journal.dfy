/** What the operation journal may do to one operation row and its steps. */
module Journal {
  import opened Wrappers
  import opened LedgerTypes

  // Last step -------------------------------------------------------------------------

  ghost function Last(steps: map<nat, Step>): nat { Largest(steps.Keys) }

  /** Steps are numbered from one without gaps. */
  ghost predicate Numbered(steps: map<nat, Step>) {
    forall k: nat :: k in steps <==> 1 <= k <= |steps|
  }

  lemma LastIsCount(steps: map<nat, Step>)
    requires Numbered(steps)
    ensures Last(steps) == |steps|
  {
    LargestIs(steps.Keys);
    if steps != map[] { assert |steps| in steps.Keys; }
  }

  // Journal calls -----------------------------------------------------------------------

  datatype Call =
    | Record(sequence: nat, at: nat, command: Command, resource: string, expects: Expected)
    | Finish(sequence: nat, outcome: StepOutcome)
    | Retry(phase: string)
    | SetStatus(status: Status, phase: string)
    | Startup
    | Reconcile(sequence: nat, outcome: StepOutcome)
    | Abandon(at: nat)

  ghost predicate AnyOpen(steps: map<nat, Step>) {
    exists k :: k in steps && steps[k].outcome.None?
  }

  ghost predicate AnyUnknown(steps: map<nat, Step>) {
    exists k :: k in steps && steps[k].outcome == Some(StepUnknown)
  }

  ghost function Recorded(op: Operation, call: Call): Result<Operation, Conflict>
    requires call.Record?
  {
    var last := Last(op.steps);
    if call.resource == "" || call.sequence == 0 || call.at == 0 then Err(InvalidInput)
    else if op.attempt != call.at || op.status !in {Accepted, Executing} then Err(Missing)
    else if call.sequence != last + 1 || (last in op.steps && op.steps[last].outcome.None?) then Err(InvalidInput)
    else
      var step := Step(call.at, call.command, call.resource, call.expects, None);
      Ok(op.(steps := op.steps[call.sequence := step]))
  }

  function Closed(op: Operation, sequence: nat, outcome: StepOutcome): Operation
    requires sequence in op.steps
  {
    op.(steps := op.steps[sequence := op.steps[sequence].(outcome := Some(outcome))])
  }

  ghost function Reconciled(op: Operation, sequence: nat, outcome: StepOutcome): Result<Operation, Conflict> {
    if sequence == 0 || !Undecided(op.status) then Err(InvalidInput)
    else if sequence !in op.steps then Err(Missing)
    else if op.steps[sequence].outcome !in {None, Some(StepUnknown)} then Err(InvalidInput)
    else Ok(Closed(op, sequence, outcome))
  }

  /** The effect of one journal call on one operation. */
  ghost function Apply(op: Operation, call: Call): Result<Operation, Conflict> {
    match call
    case Record(_, _, _, _, _) => Recorded(op, call)
    case Finish(sequence, outcome) =>
      if sequence == 0 then Err(InvalidInput)
      else if sequence in op.steps && op.steps[sequence].outcome.None? then Ok(Closed(op, sequence, outcome))
      else Err(Missing)
    case Retry(phase) =>
      if phase == "" then Err(InvalidInput)
      else if !Undecided(op.status) || AnyOpen(op.steps) then Err(InvalidLifecycle)
      else Ok(op.(attempt := op.attempt + 1, status := Executing, phase := phase))
    case SetStatus(status, phase) =>
      if phase == "" then Err(InvalidInput)
      else if status == Abandoned || Terminal(op.status) then Err(InvalidLifecycle)
      else if status == Succeeded && AnyOpen(op.steps) then Err(InvalidLifecycle)
      else Ok(op.(status := status, phase := phase))
    case Startup => Ok(if op.status == Executing then op.(status := OutcomeUnknown) else op)
    case Reconcile(sequence, outcome) => Reconciled(op, sequence, outcome)
    case Abandon(at) =>
      if op.kind == Delete || op.attempt != at || !Undecided(op.status)
        || AnyOpen(op.steps) || AnyUnknown(op.steps)
      then Err(InvalidInput)
      else Ok(op.(status := Abandoned, phase := "abandoned"))
  }

  /** The answer when no operation has the given identity. */
  function Unknown(call: Call): Conflict {
    match call
    case Record(sequence, at, _, resource, _) =>
      if resource == "" || sequence == 0 || at == 0 then InvalidInput else Missing
    case Finish(sequence, _) => if sequence == 0 then InvalidInput else Missing
    case Retry(phase) => if phase == "" then InvalidInput else InvalidLifecycle
    case SetStatus(_, phase) => if phase == "" then InvalidInput else InvalidLifecycle
    case Startup => Missing
    case Reconcile(sequence, _) => if sequence == 0 then InvalidInput else Missing
    case Abandon(at) => if at == 0 then InvalidInput else Missing
  }

  // What every run keeps ------------------------------------------------------------------

  /** Only the last step may still be waiting for its outcome. */
  ghost predicate OpenAtEnd(steps: map<nat, Step>) {
    forall k | k in steps && steps[k].outcome.None? :: k == |steps|
  }

  ghost predicate AttemptsRise(op: Operation) {
    && (forall k | k in op.steps :: 1 <= op.steps[k].attempt <= op.attempt)
    && (forall j, k | j in op.steps && k in op.steps && j <= k :: op.steps[j].attempt <= op.steps[k].attempt)
  }

  ghost predicate Sound(op: Operation) {
    && op.attempt >= 1
    && Numbered(op.steps) && OpenAtEnd(op.steps) && AttemptsRise(op)
    && (Terminal(op.status) ==> !AnyOpen(op.steps))
  }

  /** The columns no journal call writes. */
  predicate SameRequest(a: Operation, b: Operation) {
    a.kind == b.kind && a.expected == b.expected && a.oldSpec == b.oldSpec && a.newSpec == b.newSpec
  }

  lemma StepAdded(steps: map<nat, Step>, sequence: nat, step: Step)
    requires Numbered(steps) && sequence == |steps| + 1
    ensures sequence !in steps && |steps[sequence := step]| == |steps| + 1 && Numbered(steps[sequence := step])
  {
    hide Numbered;
    var after := steps[sequence := step];
    NumberedMeans(steps, sequence);
    OneMore(steps, sequence, step);
    forall k: nat ensures k in after <==> 1 <= k <= |after| {
      AlsoAfter(steps, after, sequence, k);
    }
    NumberedIf(after);
  }

  lemma OneMore(steps: map<nat, Step>, sequence: nat, step: Step)
    requires sequence !in steps
    ensures |steps[sequence := step]| == |steps| + 1 && steps[sequence := step].Keys == steps.Keys + {sequence}
  {
    var after := steps[sequence := step];
    assert after.Keys == steps.Keys + {sequence};
    assert |after.Keys| == |steps.Keys| + 1;
  }

  lemma AlsoAfter(steps: map<nat, Step>, after: map<nat, Step>, sequence: nat, k: nat)
    requires Numbered(steps) && sequence == |steps| + 1 && |after| == |steps| + 1
    requires after.Keys == steps.Keys + {sequence}
    ensures k in after <==> 1 <= k <= |after|
  {
    hide Numbered;
    NumberedMeans(steps, k);
    assert k in after.Keys <==> k in steps.Keys || k == sequence;
  }

  lemma NumberedMeans(steps: map<nat, Step>, k: nat)
    requires Numbered(steps)
    ensures k in steps <==> 1 <= k <= |steps|
  {
  }

  lemma NumberedIf(steps: map<nat, Step>)
    requires forall k: nat :: k in steps <==> 1 <= k <= |steps|
    ensures Numbered(steps)
  {
  }

  lemma StepReplaced(steps: map<nat, Step>, sequence: nat, step: Step)
    requires Numbered(steps) && sequence in steps
    ensures |steps[sequence := step]| == |steps| && Numbered(steps[sequence := step])
  {
    var after := steps[sequence := step];
    assert after.Keys == steps.Keys && |after.Keys| == |steps.Keys|;
  }

  lemma NoneOpen(op: Operation)
    requires Sound(op) && (|op.steps| in op.steps ==> op.steps[|op.steps|].outcome.Some?)
    ensures !AnyOpen(op.steps)
  {
    hide Numbered, AttemptsRise;
  }

  lemma RecordKeeps(op: Operation, call: Call)
    requires Sound(op) && call.Record? && Recorded(op, call).Ok?
    ensures Sound(Recorded(op, call).value)
    ensures call.sequence == |op.steps| + 1 && !AnyOpen(op.steps)
  {
    hide Numbered;
    LastIsCount(op.steps);
    var after := Recorded(op, call).value;
    NoneOpen(op);
    StepAdded(op.steps, call.sequence, after.steps[call.sequence]);
    AddedRises(op, after, call.sequence);
  }

  lemma AddedRises(op: Operation, after: Operation, sequence: nat)
    requires AttemptsRise(op) && after.attempt == op.attempt && Numbered(op.steps) && sequence == |op.steps| + 1
    requires sequence in after.steps && after.steps == op.steps[sequence := after.steps[sequence]]
    requires 1 <= after.steps[sequence].attempt == op.attempt
    ensures AttemptsRise(after)
  {
    forall j, k | j in after.steps && k in after.steps && j <= k
      ensures after.steps[j].attempt <= after.steps[k].attempt
    {
      assert j != sequence ==> j in op.steps;
      assert k != sequence ==> k in op.steps;
    }
  }

  lemma CloseKeeps(op: Operation, sequence: nat, outcome: StepOutcome)
    requires Sound(op) && sequence in op.steps
    ensures Sound(Closed(op, sequence, outcome))
    ensures AnyOpen(Closed(op, sequence, outcome).steps) ==> AnyOpen(op.steps)
  {
    hide Numbered, AttemptsRise, AnyOpen;
    var after := Closed(op, sequence, outcome);
    StepReplaced(op.steps, sequence, after.steps[sequence]);
    ClosedOpens(op.steps, after.steps, sequence);
    ClosedRises(op, after, sequence);
  }

  lemma ClosedOpens(before: map<nat, Step>, after: map<nat, Step>, sequence: nat)
    requires sequence in after && after[sequence].outcome.Some? && after == before[sequence := after[sequence]]
    ensures AnyOpen(after) ==> AnyOpen(before)
  {
    if AnyOpen(after) {
      var k :| k in after && after[k].outcome.None?;
      assert before[k].outcome.None?;
    }
  }

  lemma ClosedRises(op: Operation, after: Operation, sequence: nat)
    requires AttemptsRise(op) && after.attempt == op.attempt && sequence in op.steps && sequence in after.steps
    requires after.steps == op.steps[sequence := after.steps[sequence]]
    requires after.steps[sequence].attempt == op.steps[sequence].attempt
    ensures AttemptsRise(after)
  {
    forall k | k in after.steps ensures after.steps[k].attempt == op.steps[k].attempt {}
  }

  lemma SameStepsKeep(op: Operation, after: Operation)
    requires Sound(op) && after.steps == op.steps && op.attempt <= after.attempt && after.kind == op.kind
    requires Terminal(after.status) ==> Terminal(op.status) || !AnyOpen(op.steps)
    ensures Sound(after)
  {
    hide Numbered, OpenAtEnd, AnyOpen;
  }

  /** Every journal call keeps the numbering, the attempts and the single open step. */
  lemma CallKeeps(op: Operation, call: Call)
    requires Sound(op) && Apply(op, call).Ok?
    ensures Sound(Apply(op, call).value) && SameRequest(op, Apply(op, call).value)
    ensures op.attempt <= Apply(op, call).value.attempt
  {
    hide Sound, AnyOpen, AnyUnknown;
    match call
    case Record(_, _, _, _, _) => RecordKeeps(op, call);
    case Finish(sequence, outcome) => CloseKeeps(op, sequence, outcome);
    case Reconcile(sequence, outcome) => CloseKeeps(op, sequence, outcome);
    case _ => SameStepsKeep(op, Apply(op, call).value);
  }

  /** Steps never disappear or move, a known outcome never changes, and none begins while one is open. */
  ghost predicate Extends(before: map<nat, Step>, after: map<nat, Step>) {
    && (forall k | k in before :: k in after && after[k] == before[k].(outcome := after[k].outcome))
    && (forall k | k in before && before[k].outcome in {Some(StepSucceeded), Some(StepFailed)} :: after[k] == before[k])
    && (forall k | k in after && k !in before :: !AnyOpen(before))
  }

  lemma RecordExtends(op: Operation, call: Call)
    requires Sound(op) && call.Record? && Recorded(op, call).Ok?
    ensures Extends(op.steps, Recorded(op, call).value.steps)
  {
    hide Numbered, OpenAtEnd, AttemptsRise, AnyOpen;
    RecordKeeps(op, call);
    assert call.sequence !in op.steps by { StepAdded(op.steps, call.sequence, Recorded(op, call).value.steps[call.sequence]); }
  }

  lemma CloseExtends(op: Operation, sequence: nat, outcome: StepOutcome)
    requires sequence in op.steps && op.steps[sequence].outcome in {None, Some(StepUnknown)}
    ensures Extends(op.steps, Closed(op, sequence, outcome).steps)
  {
  }

  /** What every journal call does to the steps. */
  lemma CallExtends(op: Operation, call: Call)
    requires Sound(op) && Apply(op, call).Ok?
    ensures Extends(op.steps, Apply(op, call).value.steps)
  {
    hide Sound, Recorded, AnyUnknown;
    match call
    case Record(_, _, _, _, _) => RecordExtends(op, call);
    case Finish(sequence, outcome) => CloseExtends(op, sequence, outcome);
    case Reconcile(sequence, outcome) => CloseExtends(op, sequence, outcome);
    case _ => assert Apply(op, call).value.steps == op.steps;
  }

  /** A retry begins a new attempt: it may record at once, and no earlier step belongs to it. */
  lemma RetryStartsFresh(op: Operation, phase: string)
    requires Sound(op) && Apply(op, Retry(phase)).Ok?
    ensures var after := Apply(op, Retry(phase)).value;
      && after.status == Executing && !AnyOpen(after.steps) && after.steps == op.steps
      && forall k | k in after.steps :: after.steps[k].attempt < after.attempt
  {
  }

  /** After a restart nothing counts as executing, and only what was executing is in doubt because of it. */
  lemma StartupDoubts(op: Operation)
    ensures var after := Apply(op, Startup).value;
      && after.status != Executing && after == op.(status := after.status)
      && (after.status != op.status <==> op.status == Executing) && Unresolved(after) == Unresolved(op)
      && (op.status == Executing ==> after.status == OutcomeUnknown)
  {
  }

  /** A finished operation whose steps are closed never changes again. */
  lemma FrozenWhenClosed(op: Operation, call: Call)
    requires Terminal(op.status) && !AnyOpen(op.steps)
    ensures Apply(op, call).Ok? ==> Apply(op, call).value == op
  {
  }

  /** Exactly when some journal call can still change a finished operation. */
  lemma FinishedChangesIffOpen(op: Operation)
    requires Terminal(op.status) && Numbered(op.steps)
    ensures (exists call :: Apply(op, call).Ok? && Apply(op, call).value != op) <==> AnyOpen(op.steps)
  {
    if AnyOpen(op.steps) {
      var k :| k in op.steps && op.steps[k].outcome.None?;
      var call := Finish(k, StepSucceeded);
      assert Apply(op, call).value.steps[k].outcome.Some?;
      assert Apply(op, call).Ok? && Apply(op, call).value != op;
    } else {
      forall call | Apply(op, call).Ok? ensures Apply(op, call).value == op {
        FrozenWhenClosed(op, call);
      }
    }
  }

  /** Reads of the last step alone see every step that could still be open. */
  lemma LastClosedMeansAllClosed(op: Operation)
    requires Sound(op)
    ensures AnyOpen(op.steps) <==> Last(op.steps) in op.steps && op.steps[Last(op.steps)].outcome.None?
  {
    LastIsCount(op.steps);
  }

  // What each call needs and leaves --------------------------------------------------------------------------

  /** Only an operation a user must decide on can be retried, reconciled or abandoned. */
  lemma DecisionsNeedDoubt(op: Operation, call: Call)
    requires (call.Retry? || call.Reconcile? || call.Abandon?) && Apply(op, call).Ok?
    ensures op.status in {Failed, AwaitingDecision, OutcomeUnknown}
    ensures call.Retry? ==> Apply(op, call).value.status == Executing && Apply(op, call).value.attempt == op.attempt + 1
    ensures call.Reconcile? ==> Apply(op, call).value.status == op.status
    ensures call.Abandon? ==> Apply(op, call).value.status == Abandoned
  {
  }

  /** Abandoning gives up only what is certain: every step is known to have worked or to have failed. */
  lemma AbandonIsCertain(op: Operation, at: nat)
    requires Apply(op, Abandon(at)).Ok?
    ensures op.kind != Delete && op.attempt == at
    ensures forall k | k in op.steps :: op.steps[k].outcome in {Some(StepSucceeded), Some(StepFailed)}
    ensures Apply(op, Abandon(at)).value.steps == op.steps
  {
    forall k | k in op.steps ensures op.steps[k].outcome in {Some(StepSucceeded), Some(StepFailed)} {
      assert op.steps[k].outcome.Some?;
      match op.steps[k].outcome.value
      case StepSucceeded =>
      case StepFailed =>
      case StepUnknown =>
    }
  }

  /** And that is all it needs: a certain, undecided operation that is no deletion can always be abandoned. */
  lemma CertainCanBeAbandoned(op: Operation)
    requires op.kind != Delete && op.status in {Failed, AwaitingDecision, OutcomeUnknown}
    requires forall k | k in op.steps :: op.steps[k].outcome in {Some(StepSucceeded), Some(StepFailed)}
    ensures Apply(op, Abandon(op.attempt)).Ok?
  {
  }

  /** A step is recorded open, for the current attempt of an operation under way, after all others are closed. */
  lemma RecordIsNext(op: Operation, call: Call)
    requires Sound(op) && call.Record? && Apply(op, call).Ok?
    ensures op.status in {Accepted, Executing} && call.at == op.attempt && call.resource != "" && !AnyOpen(op.steps)
    ensures call.sequence == |op.steps| + 1 && Apply(op, call).value == op.(
      steps := op.steps[|op.steps| + 1 := Step(op.attempt, call.command, call.resource, call.expects, None)])
  {
    RecordKeeps(op, call);
  }

  /** An outcome is written as it was reported, once for an open step, or again only over doubt. */
  lemma OutcomeIsWritten(op: Operation, call: Call)
    requires (call.Finish? || call.Reconcile?) && Apply(op, call).Ok?
    ensures call.sequence in op.steps
    ensures op.steps[call.sequence].outcome.None? || (call.Reconcile? && op.steps[call.sequence].outcome == Some(StepUnknown))
    ensures Apply(op, call).value == op.(
      steps := op.steps[call.sequence := op.steps[call.sequence].(outcome := Some(call.outcome))])
  {
  }

  /** A status is set only while nothing is final, and success only over closed steps. */
  lemma StatusIsSet(op: Operation, call: Call)
    requires call.SetStatus? && Apply(op, call).Ok?
    ensures Unresolved(op) && call.status != Abandoned && (call.status == Succeeded ==> !AnyOpen(op.steps))
    ensures Apply(op, call).value == op.(status := call.status, phase := call.phase)
  {
  }
}
