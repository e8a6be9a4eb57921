/** Creating an allocation's named volume at most once, whatever the engine answers. */
module NamedVolumes {
  import opened Wrappers
  import opened LedgerTypes
  import opened InstanceSteps
  import Journal

  datatype VolumeCheck = Owned | Foreign | NoVolume | Unavailable

  datatype CreateResult = Acknowledged | Refused | Uncertain

  datatype VolumeError = Lost | Doubtful | StoreFailed

  datatype Outcome = Usable | Failure(error: VolumeError) | Crash

  // Creation steps ------------------------------------------------------------------------------

  predicate CreatesVolume(step: Step, resource: string) {
    step.command == CreateVolume && step.expected == VolumeCreated && step.resource == resource
  }

  function Creations(op: Operation, resource: string): set<nat> {
    set k | k in op.steps && CreatesVolume(op.steps[k], resource)
  }

  predicate SomeCreated(op: Operation, resource: string) {
    exists k :: k in Creations(op, resource) && op.steps[k].outcome == Some(StepSucceeded)
  }

  /** Every known attempt is over and is known to have created nothing. */
  predicate AllFailedBefore(op: Operation, resource: string, attempt: nat) {
    forall k | k in Creations(op, resource) :: op.steps[k].outcome == Some(StepFailed) && op.steps[k].attempt < attempt
  }

  /**
   * Every create command sent has its own step, in order; and before the latest one was sent, every
   * earlier creation step was already known to have failed.
   */
  ghost predicate SentSafely(op: Operation, resource: string, sent: seq<nat>) {
    && (forall i | 0 <= i < |sent| :: sent[i] in Creations(op, resource))
    && (forall i, j | 0 <= i < j < |sent| :: sent[i] < sent[j])
    && (sent != [] ==> forall k | k in Creations(op, resource) && k < sent[|sent| - 1] ::
          op.steps[k].outcome == Some(StepFailed))
  }

  /** No journal call, by whomever, can spoil what was sent. */
  lemma CallKeepsSent(op: Operation, resource: string, sent: seq<nat>, call: Journal.Call)
    requires Journal.Sound(op) && SentSafely(op, resource, sent) && Journal.Apply(op, call).Ok?
    ensures SentSafely(Journal.Apply(op, call).value, resource, sent)
    ensures SomeCreated(op, resource) ==> SomeCreated(Journal.Apply(op, call).value, resource)
  {
    hide Journal.Apply, Journal.Sound;
    var after := Journal.Apply(op, call).value;
    Journal.CallExtends(op, call);
    Journal.CallKeeps(op, call);
    forall k | k in Creations(after, resource) && k in op.steps ensures k in Creations(op, resource) {
      assert after.steps[k] == op.steps[k].(outcome := after.steps[k].outcome);
    }
    forall k | k in Creations(op, resource) ensures k in Creations(after, resource) {
      assert after.steps[k] == op.steps[k].(outcome := after.steps[k].outcome);
    }
    NewStepsAreLater(op, call);
    if SomeCreated(op, resource) {
      var k :| k in Creations(op, resource) && op.steps[k].outcome == Some(StepSucceeded);
      assert after.steps[k] == op.steps[k];
    }
  }

  lemma NewStepsAreLater(op: Operation, call: Journal.Call)
    requires Journal.Sound(op) && Journal.Apply(op, call).Ok?
    ensures forall j, k | j in op.steps && k in Journal.Apply(op, call).value.steps && k !in op.steps :: j < k
  {
    if call.Record? { Journal.RecordKeeps(op, call); }
  }

  /** What a fresh look at the volume says about its saved presence, without changing anything. */
  function Observed(check: VolumeCheck, presence: Presence, op: Operation, resource: string): Option<Presence> {
    match check
    case Owned => Some(if SomeCreated(op, resource) then Present else Unverified)
    case Foreign => Some(Unverified)
    case NoVolume =>
      if presence == NotMaterialized && Creations(op, resource) == {} then Some(NotMaterialized)
      else if presence == Present || presence == Absent || SomeCreated(op, resource) then Some(Absent)
      else Some(Unverified)
    case Unavailable => None
  }

  /** Data counts as present only with a step that proves the volume was created for this allocation. */
  lemma PresentNeedsProof(check: VolumeCheck, presence: Presence, op: Operation, resource: string)
    ensures Observed(check, presence, op, resource) == Some(Present) <==> check == Owned && SomeCreated(op, resource)
    ensures Observed(check, presence, op, resource) == Some(NotMaterialized) ==> Creations(op, resource) == {}
  {
  }

  /** What a look that may write makes of the saved presence, if it makes anything of it. */
  function Learned(check: VolumeCheck, presence: Presence, op: Operation, resource: string): Option<Presence> {
    var steps := Creations(op, resource);
    if check == Owned && steps != {} then Some(Present)
    else if check != NoVolume then Some(Unverified)
    else if presence == Present || SomeCreated(op, resource) then Some(Absent)
    else if steps != {} then Some(Unverified)
    else None
  }

  /** Steps whose volume turned out to be there have created it; some are still to be closed. */
  function ClosedExcept(op: Operation, resource: string, open: set<nat>): Operation {
    op.(steps := map k | k in op.steps ::
          if k in Creations(op, resource) && k !in open && op.steps[k].outcome.None? then
            op.steps[k].(outcome := Some(StepSucceeded))
          else op.steps[k])
  }

  function ClosedCreations(op: Operation, resource: string): Operation { ClosedExcept(op, resource, {}) }

  lemma ClosesOne(op: Operation, resource: string, open: set<nat>, k: nat)
    requires k in open && k in Creations(op, resource) && op.steps[k].outcome.None?
    ensures var now := ClosedExcept(op, resource, open);
      && k in now.steps && now.steps[k].outcome.None?
      && Journal.Closed(now, k, StepSucceeded) == ClosedExcept(op, resource, open - {k})
  {
    var now := ClosedExcept(op, resource, open);
    assert Journal.Closed(now, k, StepSucceeded).steps == ClosedExcept(op, resource, open - {k}).steps;
  }

  lemma NoneClosed(op: Operation, resource: string, open: set<nat>)
    requires forall k | k in Creations(op, resource) && op.steps[k].outcome.None? :: k in open
    ensures ClosedExcept(op, resource, open) == op
  {
    assert ClosedExcept(op, resource, open).steps == op.steps;
  }

  /** Data is declared lost only if it was known to exist and the volume is surely gone; doubt never becomes loss. */
  lemma LostOnlyIfKnown(check: VolumeCheck, presence: Presence, op: Operation, resource: string)
    ensures Learned(check, presence, op, resource) == Some(Absent) <==>
      check == NoVolume && (presence == Present || SomeCreated(op, resource))
    ensures Learned(check, presence, op, resource) == Some(Present) <==> check == Owned && Creations(op, resource) != {}
    ensures Learned(check, presence, op, resource).None? <==>
      check == NoVolume && presence != Present && Creations(op, resource) == {}
    ensures Learned(check, presence, op, resource) != Some(NotMaterialized)
    ensures Observed(check, presence, op, resource) == Some(Absent) <==>
      check == NoVolume && (presence in {Present, Absent} || SomeCreated(op, resource))
    ensures Observed(check, presence, op, resource) == Some(NotMaterialized) <==>
      check == NoVolume && presence == NotMaterialized && Creations(op, resource) == {}
    ensures Observed(check, presence, op, resource).None? <==> check == Unavailable
  {
  }

  /** The one step a successful creation leaves. */
  function CreationStep(attempt: nat, resource: string): Step {
    Step(attempt, CreateVolume, resource, VolumeCreated, Some(StepSucceeded))
  }

  /** The journal takes a step of this number now. */
  predicate NextStep(op: Operation, attempt: nat, sequence: nat) {
    && attempt > 0 && op.attempt == attempt && op.status in {Accepted, Executing} && sequence == |op.steps| + 1
    && (|op.steps| in op.steps ==> op.steps[|op.steps|].outcome.Some?)
  }

  lemma RecordedIff(op: Operation, attempt: nat, sequence: nat, resource: string)
    requires Journal.Sound(op) && resource != ""
    ensures var r := Journal.Apply(op, Journal.Record(sequence, attempt, CreateVolume, resource, VolumeCreated));
      && (r.Ok? <==> NextStep(op, attempt, sequence))
      && (r.Ok? ==> r.value == op.(
           steps := op.steps[sequence := Step(attempt, CreateVolume, resource, VolumeCreated, None)]))
  {
    Journal.LastIsCount(op.steps);
  }

  lemma NotSentYet(op: Operation, resource: string, sent: seq<nat>)
    requires Journal.Sound(op) && SentSafely(op, resource, sent)
    ensures |op.steps| + 1 !in sent
  {
    forall i | 0 <= i < |sent| ensures sent[i] != |op.steps| + 1 {
      assert sent[i] in Creations(op, resource);
    }
  }

  /** Somebody else's volume, or none at all after a command that was surely over: nothing was made. */
  predicate SurelyNotMade(check: VolumeCheck, result: CreateResult) {
    check == Foreign || (check == NoVolume && result != Uncertain)
  }

  /** The step just recorded is the only creation step that is not known to have failed. */
  lemma OnlyThisIsOpen(before: Operation, after: Operation, resource: string, attempt: nat, sequence: nat)
    requires Journal.Sound(before) && AllFailedBefore(before, resource, attempt) && sequence == |before.steps| + 1
    requires after.steps == before.steps[sequence := Step(attempt, CreateVolume, resource, VolumeCreated, None)]
    ensures sequence in Creations(after, resource) && sequence !in before.steps && sequence == |after.steps|
    ensures forall k | k in Creations(after, resource) && k < sequence :: after.steps[k].outcome == Some(StepFailed)
  {
    Journal.StepAdded(before.steps, sequence, after.steps[sequence]);
    forall k | k in Creations(after, resource) && k < sequence ensures after.steps[k].outcome == Some(StepFailed) {
      assert k in Creations(before, resource);
    }
  }

  /** After one more attempt, further ones are barred unless that one is known to have failed. */
  lemma OneMoreAttempt(before: Operation, after: Operation, resource: string, attempt: nat, sequence: nat)
    requires AllFailedBefore(before, resource, attempt) && sequence !in before.steps && sequence in after.steps
    requires after.steps == before.steps[sequence := after.steps[sequence]]
    requires CreatesVolume(after.steps[sequence], resource) && after.steps[sequence].attempt == attempt
    ensures if after.steps[sequence].outcome == Some(StepFailed)
      then forall a | a > attempt :: AllFailedBefore(after, resource, a)
      else forall a :: !AllFailedBefore(after, resource, a)
  {
    assert sequence in Creations(after, resource);
  }

  class VolumeDriver {
    const resource: string
    const checks: nat -> VolumeCheck
    const creates: nat -> CreateResult
    var op: Operation
    var presence: Presence
    /** Sequence numbers of the steps under which a create command was sent. */
    var sent: seq<nat>
    var asked: nat
    /** Actions left before the process dies. */
    var budget: nat

    ghost predicate Valid()
      reads this
    {
      resource != "" && Journal.Sound(op) && SentSafely(op, resource, sent)
    }

    constructor (
      name: string, o: Operation, saved: Presence, checks: nat -> VolumeCheck, creates: nat -> CreateResult, budget: nat)
      requires name != "" && Journal.Sound(o)
      ensures Valid() && resource == name && op == o && presence == saved && sent == [] && asked == 0
      ensures this.checks == checks && this.creates == creates && this.budget == budget
    {
      resource, op, presence, sent, asked, this.budget := name, o, saved, [], 0, budget;
      this.checks, this.creates := checks, creates;
    }

    method Tick() returns (alive: bool)
      modifies `budget
      ensures alive == (old(budget) > 0) && budget == if alive then old(budget) - 1 else 0
    {
      alive := budget > 0;
      if alive { budget := budget - 1; }
    }

    method Inspect() returns (check: VolumeCheck)
      modifies `asked
      ensures check == checks(old(asked)) && asked == old(asked) + 1
    {
      check := checks(asked);
      asked := asked + 1;
    }

    method SetPresence(next: Presence) returns (ok: bool)
      modifies `presence
      ensures ok == MayFollow(old(presence), next) && presence == if ok then next else old(presence)
    {
      ok := MayFollow(presence, next);
      if ok { presence := next; }
    }

    /** Anything else the journal does to this operation between two calls. */
    method Elsewhere(ghost call: Journal.Call, after: Operation)
      requires Valid() && Journal.Apply(op, call) == Ok(after)
      modifies `op
      ensures Valid() && op == after && (SomeCreated(old(op), resource) ==> SomeCreated(op, resource))
    {
      CallKeepsSent(op, resource, sent, call);
      Journal.CallKeeps(op, call);
      op := after;
    }

    method RecordCreation(attempt: nat, sequence: nat) returns (ok: bool)
      requires Valid()
      modifies `op
      ensures Valid()
      ensures var call := Journal.Record(sequence, attempt, CreateVolume, resource, VolumeCreated);
        ok == Journal.Apply(old(op), call).Ok? && op == if ok then Journal.Apply(old(op), call).value else old(op)
      ensures ok == NextStep(old(op), attempt, sequence)
      ensures ok ==> op == old(op).(steps := op.steps) && sequence == |old(op).steps| + 1 && sequence !in sent
      ensures ok ==> op.steps == old(op).steps[sequence := Step(attempt, CreateVolume, resource, VolumeCreated, None)]
    {
      hide Journal.Sound, SentSafely, Journal.Apply;
      ghost var call := Journal.Record(sequence, attempt, CreateVolume, resource, VolumeCreated);
      RecordedIff(op, attempt, sequence, resource);
      NotSentYet(op, resource, sent);
      var last := |op.steps|;
      if sequence == 0 || attempt == 0 || op.attempt != attempt || op.status !in {Accepted, Executing} { return false; }
      if sequence != last + 1 || (last in op.steps && op.steps[last].outcome.None?) { return false; }
      CallKeepsSent(op, resource, sent, call);
      Journal.CallKeeps(op, call);
      op := op.(steps := op.steps[sequence := Step(attempt, CreateVolume, resource, VolumeCreated, None)]);
      ok := true;
    }

    method FinishCreation(sequence: nat, outcome: StepOutcome)
      requires Valid() && sequence in op.steps && op.steps[sequence].outcome.None?
      modifies `op
      ensures Valid() && op == Journal.Closed(old(op), sequence, outcome)
    {
      assert sequence != 0;
      CallKeepsSent(op, resource, sent, Journal.Finish(sequence, outcome));
      Journal.CallKeeps(op, Journal.Finish(sequence, outcome));
      op := Journal.Closed(op, sequence, outcome);
    }

    /** A volume that is there although its step was never closed was created by that step. */
    method CloseOpenCreations()
      requires Valid()
      modifies `op
      ensures Valid() && op == ClosedCreations(old(op), resource)
    {
      hide SentSafely, Journal.Sound, ClosedExcept;
      ghost var start := op;
      var open: set<nat> := set k | k in op.steps && CreatesVolume(op.steps[k], resource) && op.steps[k].outcome.None?;
      NoneClosed(op, resource, open);
      while open != {}
        invariant Valid() && op == ClosedExcept(start, resource, open)
        invariant forall k | k in open :: k in Creations(start, resource) && start.steps[k].outcome.None?
        decreases |open|
      {
        var k :| k in open;
        ClosesOne(start, resource, open, k);
        FinishCreation(k, StepSucceeded);
        open := open - {k};
      }
    }

    /** Sends the create command under its own, already recorded step, and closes that step. */
    method Create(sequence: nat) returns (r: Outcome)
      requires Valid() && sequence in Creations(op, resource) && op.steps[sequence].outcome.None?
      requires sequence == |op.steps| && sequence !in sent
      requires forall k | k in Creations(op, resource) && k < sequence :: op.steps[k].outcome == Some(StepFailed)
      modifies this
      ensures Valid() && (sent == old(sent) || sent == old(sent) + [sequence])
      ensures sequence in op.steps && op == old(op).(steps := old(op).steps[sequence := op.steps[sequence]])
      ensures op.steps[sequence] == old(op).steps[sequence].(outcome := op.steps[sequence].outcome)
      ensures op.steps[sequence].outcome.Some? ==> sent == old(sent) + [sequence]
      ensures r != Crash ==> op.steps[sequence].outcome.Some?
      ensures presence in {old(presence), Present, Unverified} && r != Failure(Lost)
      ensures op.steps[sequence].outcome.Some? ==>
        op.steps[sequence].outcome.value ==
          if checks(old(asked)) == Owned then StepSucceeded
          else if SurelyNotMade(checks(old(asked)), creates(|old(sent)|)) then StepFailed else StepUnknown
      ensures r.Failure? && checks(old(asked)) == NoVolume && creates(|old(sent)|) != Uncertain ==>
        presence == old(presence) && r == Failure(StoreFailed)
      ensures r.Failure? && MayFollow(old(presence), Unverified) && checks(old(asked)) in {Foreign, Unavailable} ==>
        presence == Unverified && r == Failure(Doubtful)
      ensures r.Failure? && MayFollow(old(presence), Unverified) && checks(old(asked)) == NoVolume ==>
        creates(|old(sent)|) == Uncertain ==> presence == Unverified && r == Failure(Doubtful)
      ensures r == Usable ==> op == Journal.Closed(old(op), sequence, StepSucceeded) && presence == Present
      ensures r == Usable ==> sent == old(sent) + [sequence]
      ensures old(budget) >= 4 ==> r != Crash
      ensures old(budget) >= 4 ==>
        (r == Usable <==> checks(old(asked)) == Owned && MayFollow(old(presence), Present))
    {
      hide SentSafely, Journal.AttemptsRise, Journal.OpenAtEnd;
      var alive := Tick();
      if !alive { return Crash; }
      var result := creates(|sent|);
      SentIsOrdered(op, resource, sent, sequence);
      sent := sent + [sequence];
      alive := Tick();
      if !alive { return Crash; }
      var after := Inspect();
      alive := Tick();
      if !alive { return Crash; }
      var outcome := match after
        case Owned => StepSucceeded
        case Foreign => StepFailed
        case NoVolume => if result == Uncertain then StepUnknown else StepFailed
        case Unavailable => StepUnknown;
      FinishCreation(sequence, outcome);
      alive := Tick();
      if !alive { return Crash; }
      var marked := true;
      if after == Owned { marked := SetPresence(Present); }
      else if after != NoVolume || result == Uncertain { marked := SetPresence(Unverified); }
      if !marked { return Failure(StoreFailed); }
      r := match after
        case Owned => Usable
        case Foreign => Failure(Doubtful)
        case NoVolume => if result == Uncertain then Failure(Doubtful) else Failure(StoreFailed)
        case Unavailable => Failure(Doubtful);
    }

    /**
     * Makes sure the allocation has its volume. A create command is sent only when the volume was seen
     * to be absent, was never seen or proved to exist, and every earlier attempt is known to have failed.
     */
    method Ensure(attempt: nat, sequence: nat) returns (r: Outcome)
      requires Valid()
      modifies this
      ensures Valid()
      ensures sent == old(sent) || (sent == old(sent) + [sequence] && sequence == |old(op).steps| + 1
        && AllFailedBefore(old(op), resource, attempt) && old(presence) !in {Present, Absent})
      ensures SomeCreated(old(op), resource) ==> sent == old(sent)
      ensures op == old(op).(steps := op.steps)
      ensures r == Usable ==> presence == Present
      ensures r == Usable && Creations(old(op), resource) == {} ==>
        sequence == |old(op).steps| + 1
        && op == old(op).(steps := old(op).steps[sequence := CreationStep(attempt, resource)])
      ensures r == Usable && Creations(old(op), resource) != {} && sent == old(sent) ==>
        op == ClosedCreations(old(op), resource)
      ensures old(budget) >= 5 ==> r != Crash
      ensures old(budget) >= 5 && Creations(old(op), resource) == {} ==>
        (r == Usable <==>
           old(presence) !in {Present, Absent} && NextStep(old(op), attempt, sequence)
           && checks(old(asked)) == NoVolume && checks(old(asked) + 1) == Owned)
      ensures sent != old(sent) && !SurelyNotMade(checks(old(asked) + 1), creates(|old(sent)|)) ==>
        forall a :: !AllFailedBefore(op, resource, a)
      ensures sent != old(sent) && r.Failure? && SurelyNotMade(checks(old(asked) + 1), creates(|old(sent)|)) ==>
        forall a | a > attempt :: AllFailedBefore(op, resource, a)
      ensures presence == Absent <==>
        || old(presence) == Absent
        || (old(budget) > 0 && checks(old(asked)) == NoVolume && (old(presence) == Present || SomeCreated(old(op), resource)))
      ensures r == Failure(Lost) ==> presence == Absent
      ensures presence == Absent && r != Crash ==> r == Failure(Lost) && op == old(op)
      ensures old(budget) > 0 && Hopeless(old(presence), checks(old(asked)), old(op), attempt) ==>
        r == Failure(Doubtful) && presence == Unverified && op == old(op) && sent == old(sent)
    {
      hide SentSafely, Journal.Sound;
      if presence == Absent { return Failure(Lost); }
      var check := Inspect();
      var alive := Tick();
      if !alive { return Crash; }
      var steps := Creations(op, resource);
      if check == Owned && steps != {} {
        CloseOpenCreations();
        alive := Tick();
        if !alive { return Crash; }
        var marked := SetPresence(Present);
        return if marked then Usable else Failure(StoreFailed);
      }
      if check != NoVolume {
        var marked := SetPresence(Unverified);
        return Failure(if marked then Doubtful else StoreFailed);
      }
      if presence == Present || SomeCreated(op, resource) {
        var marked := SetPresence(Absent);
        return Failure(if marked then Lost else StoreFailed);
      }
      if !AllFailedBefore(op, resource, attempt) {
        var marked := SetPresence(Unverified);
        return Failure(if marked then Doubtful else StoreFailed);
      }
      r := TryCreate(attempt, sequence);
    }

    /** The volume is somebody else's or cannot be seen, or an earlier attempt may have made it. */
    ghost predicate Hopeless(saved: Presence, check: VolumeCheck, o: Operation, attempt: nat) {
      && saved != Absent
      && (check == Foreign || check == Unavailable || (check == Owned && Creations(o, resource) == {})
          || (check == NoVolume && saved != Present && !SomeCreated(o, resource) && !AllFailedBefore(o, resource, attempt)))
    }

    /** A first or a further attempt, when every earlier one is known to have failed. */
    method TryCreate(attempt: nat, sequence: nat) returns (r: Outcome)
      requires Valid() && AllFailedBefore(op, resource, attempt) && presence !in {Present, Absent}
      modifies this
      ensures Valid() && op == old(op).(steps := op.steps) && presence != Absent
      ensures sent == old(sent) || (sent == old(sent) + [sequence] && sequence == |old(op).steps| + 1)
      ensures r == Usable ==>
        presence == Present && sequence == |old(op).steps| + 1
        && op == old(op).(steps := old(op).steps[sequence := CreationStep(attempt, resource)])
      ensures r == Usable ==> sent != old(sent)
      ensures old(budget) >= 4 ==> r != Crash
      ensures old(budget) >= 4 ==> (r == Usable <==> NextStep(old(op), attempt, sequence) && checks(old(asked)) == Owned)
      ensures sent != old(sent) && !SurelyNotMade(checks(old(asked)), creates(|old(sent)|)) ==>
        forall a :: !AllFailedBefore(op, resource, a)
      ensures sent != old(sent) && r.Failure? && SurelyNotMade(checks(old(asked)), creates(|old(sent)|)) ==>
        forall a | a > attempt :: AllFailedBefore(op, resource, a)
      ensures r != Failure(Lost)
    {
      hide SentSafely, Journal.Sound, AllFailedBefore, NextStep, Creations, Journal.Apply, SomeCreated, ClosedExcept;
      ghost var start := op;
      var recorded := RecordCreation(attempt, sequence);
      if !recorded { return Failure(StoreFailed); }
      OnlyThisIsOpen(start, op, resource, attempt, sequence);
      r := Create(sequence);
      OneMoreAttempt(start, op, resource, attempt, sequence);
    }

    /** Looks at the volume and updates what is known; never sends a create command. */
    method InspectOnly() returns (ok: bool)
      requires Valid()
      modifies this
      ensures Valid() && sent == old(sent)
      ensures old(presence) == Absent ==> ok && presence == Absent && op == old(op)
      ensures old(presence) != Absent ==>
        var check := checks(old(asked));
        && op == (if check == Owned then ClosedCreations(old(op), resource) else old(op))
        && match Learned(check, old(presence), old(op), resource)
           case None => ok && presence == old(presence)
           case Some(next) => ok == MayFollow(old(presence), next) && presence == if ok then next else old(presence)
    {
      hide SentSafely, Journal.Sound;
      if presence == Absent { return true; }
      var check := Inspect();
      var steps := Creations(op, resource);
      if Creations(op, resource) == {} { NoneClosed(op, resource, {}); }
      if check == Owned && steps != {} {
        CloseOpenCreations();
        ok := SetPresence(Present);
      } else if check != NoVolume {
        ok := SetPresence(Unverified);
      } else if presence == Present || SomeCreated(op, resource) {
        ok := SetPresence(Absent);
      } else if steps != {} {
        ok := SetPresence(Unverified);
      } else {
        ok := true;
      }
    }
  }

  lemma SentIsOrdered(op: Operation, resource: string, sent: seq<nat>, sequence: nat)
    requires SentSafely(op, resource, sent) && Journal.Numbered(op.steps)
    requires sequence in Creations(op, resource) && op.steps[sequence].outcome.None? && sequence == |op.steps|
    requires forall k | k in Creations(op, resource) && k < sequence :: op.steps[k].outcome == Some(StepFailed)
    requires sequence !in sent
    ensures SentSafely(op, resource, sent + [sequence])
  {
  }
}
