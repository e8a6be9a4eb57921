/** The coordinator of a creation: storage, seven ordered stages, and the two guarded store writes. */
module CreateRun {
  import opened Wrappers
  import opened LedgerTypes
  import opened PortEdits
  import opened InstanceSteps
  import opened NamedVolumes
  import Journal

  datatype Stage = Image | Artifact | Config | Creation | Inspection | Starting | Readiness

  datatype Work = Works | Fails | Unclear

  datatype StageError = EffectFailed | EffectUnknown

  function CommandOf(stage: Stage): Command {
    match stage
    case Image => ResolveImage
    case Artifact => GenerateArtifact
    case Creation => ComposeCreate
    case Starting => ComposeStart
    case _ => Observe
  }

  function ExpectedOf(stage: Stage): Expected {
    match stage
    case Image => ImageResolved
    case Artifact => ArtifactReady
    case Creation => ContainerCreated
    case Starting => ContainerRunning
    case _ => StateObserved
  }

  function PhaseOf(stage: Stage): string {
    match stage
    case Image => "image"
    case Artifact => "artifact"
    case Config => "config"
    case Creation => "create"
    case Inspection => "inspect_created"
    case Starting => "start"
    case Readiness => "ready"
  }

  const ORDER: seq<Stage> := [Image, Artifact, Config, Creation, Inspection, Starting, Readiness]

  /** The step a stage leaves when it works. */
  function StepOf(stage: Stage, resource: string): Step {
    Step(1, CommandOf(stage), resource, ExpectedOf(stage), Some(StepSucceeded))
  }

  /** The operation is executing its first attempt and may record this step next. */
  ghost predicate Running(o: Operation, sequence: nat) {
    && o.status == Executing && o.attempt == 1 && Journal.Sound(o) && !Journal.AnyOpen(o.steps)
    && sequence == |o.steps| + 1
  }

  function Recorded(o: Operation, sequence: nat, step: Step): Operation {
    o.(steps := o.steps[sequence := step.(outcome := None)])
  }

  /** The journal accepts a stage's step while it is running, and its outcome afterwards. */
  lemma StageAccepted(o: Operation, sequence: nat, step: Step, phase: string)
    requires Running(o, sequence) && step.attempt == 1 && step.resource != "" && phase != ""
    ensures var call := Journal.Record(sequence, 1, step.command, step.resource, step.expected);
      Journal.Apply(o, call) == Ok(Recorded(o, sequence, step))
    ensures Journal.Sound(Recorded(o, sequence, step))
    ensures Journal.Apply(Recorded(o, sequence, step), Journal.SetStatus(Executing, phase))
      == Ok(Recorded(o, sequence, step).(phase := phase))
  {
    Journal.LastIsCount(o.steps);
    if |o.steps| in o.steps { assert o.steps[|o.steps|].outcome.Some?; }
    Journal.CallKeeps(o, Journal.Record(sequence, 1, step.command, step.resource, step.expected));
  }

  lemma OutcomeAccepted(o: Operation, sequence: nat, step: Step, phase: string, outcome: StepOutcome)
    requires Running(o, sequence) && Journal.Sound(Recorded(o, sequence, step))
    ensures var open := Recorded(o, sequence, step).(phase := phase);
      var closed := o.(phase := phase, steps := o.steps[sequence := step.(outcome := Some(outcome))]);
      && Journal.Apply(open, Journal.Finish(sequence, outcome)) == Ok(closed)
      && Running(closed, sequence + 1)
  {
    hide Journal.AttemptsRise, Journal.OpenAtEnd;
    var open := Recorded(o, sequence, step).(phase := phase);
    SoundIgnoresPhase(Recorded(o, sequence, step), phase);
    assert Journal.Closed(open, sequence, outcome).steps == o.steps[sequence := step.(outcome := Some(outcome))];
    Journal.CallKeeps(open, Journal.Finish(sequence, outcome));
  }

  lemma SoundIgnoresPhase(o: Operation, phase: string)
    requires Journal.Sound(o)
    ensures Journal.Sound(o.(phase := phase))
  {
    hide Journal.AnyOpen, Journal.Numbered, Journal.OpenAtEnd;
  }

  // Guards met by a complete run ---------------------------------------------------------------------

  /** The steps of the first n stages follow the storage steps, in order. */
  ghost predicate Staged(o: Operation, first: nat, n: nat, instance: string, container: string) {
    && n <= 7 && |o.steps| == first + n
    && forall k | first < k <= first + n ::
         k in o.steps && o.steps[k] == StageStep(k - first - 1, instance, container)
  }

  /** The step of the i-th stage. */
  function StageStep(i: nat, instance: string, container: string): Step
    requires i < 7
  {
    StepOf(ORDER[i], ResourceOf(ORDER[i], instance, container))
  }

  /** Starting and waiting concern the container, everything before it the instance. */
  function ResourceOf(stage: Stage, instance: string, container: string): string {
    if stage == Starting || stage == Readiness then container else instance
  }

  lemma MarkAccepted(c: Cell, op: string, first: nat, instance: string, container: string)
    requires op in c.ops && Creates(c.ops[op].kind) && Running(c.ops[op], first + 6)
    requires Staged(c.ops[op], first, 5, instance, container) && Markable(c.storage)
    ensures MarkMayHaveInitialized(c, op) == Ok(c.(storage := Marked(c.storage)))
  {
    var o := c.ops[op];
    Journal.LastIsCount(o.steps);
    assert first + 5 in o.steps && o.steps[first + 5] == StepOf(Inspection, instance);
    assert first + 4 in o.steps && o.steps[first + 4] == StepOf(Creation, instance);
    var created := Succeeding(o, ComposeCreate);
    assert first + 4 in created;
    LargestIs(created);
    assert Largest(created) in created && Largest(created) <= first + 5;
  }

  lemma ReadyAccepted(c: Cell, op: string, first: nat, instance: string, container: string)
    requires op in c.ops && Creates(c.ops[op].kind) && Running(c.ops[op], first + 8) && c.ops[op].newSpec == Some(1)
    requires Staged(c.ops[op], first, 7, instance, container) && MayBeReady(c.storage) && Hex64(container)
    requires c.ops[op].phase == "ready"
    ensures CompleteReady(c, op, container) == Ok(c.(
      storage := MarkReady(c.storage), applied := Some(1),
      ops := c.ops[op := c.ops[op].(status := Succeeded, phase := "ready")]))
  {
    var o := c.ops[op];
    Journal.LastIsCount(o.steps);
    assert first + 7 in o.steps && o.steps[first + 7] == StepOf(Readiness, container);
    assert first + 6 in o.steps && o.steps[first + 6] == StepOf(Starting, container);
    var started := Succeeding(o, ComposeStart);
    assert first + 6 in started;
    LargestIs(started);
    assert Largest(started) in started && Largest(started) <= first + 7;
    assert o.phase != "reconcile" by { assert |o.phase| == 5; }
  }

  // Volumes -------------------------------------------------------------------------------------------

  /** What the engine says and does about one volume. */
  datatype VolumeWorld = VolumeWorld(checks: nat -> VolumeCheck, creates: nat -> CreateResult)

  /** More actions than ensuring one volume takes. */
  const ENOUGH := 5

  /** A volume that is neither there nor known to be lost, and is there once asked for. */
  predicate VolumeWorks(presence: Presence, v: VolumeWorld) {
    presence !in {Present, Absent} && v.checks(0) == NoVolume && v.checks(1) == Owned
  }

  predicate NoVolumeSteps(o: Operation) {
    forall k | k in o.steps :: o.steps[k].command != CreateVolume
  }

  /** How many steps the storage of an instance takes. */
  function StorageSteps(storage: map<string, Allocation>): nat {
    (if Slots(storage, Bind) == {} then 0 else 1) + |Slots(storage, Volume)|
  }

  lemma NoStepsYet(o: Operation)
    requires Running(o, 1)
    ensures o.steps == map[] && NoVolumeSteps(o)
  {
  }

  lemma RunningIsNext(o: Operation, sequence: nat)
    requires Running(o, sequence)
    ensures NextStep(o, 1, sequence) && Journal.Sound(o)
  {
    if |o.steps| in o.steps { assert o.steps[|o.steps|].outcome.Some?; }
  }

  lemma GrownRuns(o: Operation, sequence: nat, step: Step)
    requires Running(o, sequence) && step.attempt == 1 && step.resource != "" && step.outcome == Some(StepSucceeded)
    ensures Running(o.(steps := o.steps[sequence := step]), sequence + 1)
  {
    hide Running, Journal.Apply, Journal.Sound;
    StageAccepted(o, sequence, step, "storage");
    OutcomeAccepted(o, sequence, step, o.phase, StepSucceeded);
    assert o.(phase := o.phase, steps := o.steps[sequence := step.(outcome := Some(StepSucceeded))])
      == o.(steps := o.steps[sequence := step]);
  }

  /** A new creation step proves its own volume and says nothing about any other. */
  lemma CreatedOne(o: Operation, after: Operation, sequence: nat, storage: map<string, Allocation>, slot: string)
    requires slot in storage && DistinctResources(storage) && sequence !in o.steps
    requires after.steps == o.steps[sequence := CreationStep(1, storage[slot].identity)]
    ensures SomeCreated(after, storage[slot].identity)
    ensures forall other | other in storage && other != slot ::
      && Creations(after, storage[other].identity) == Creations(o, storage[other].identity)
      && (SomeCreated(o, storage[other].identity) ==> SomeCreated(after, storage[other].identity))
  {
    assert sequence in Creations(after, storage[slot].identity);
    forall other | other in storage && other != slot
      ensures Creations(after, storage[other].identity) == Creations(o, storage[other].identity)
      ensures SomeCreated(o, storage[other].identity) ==> SomeCreated(after, storage[other].identity)
    {
      OthersAsBefore(o, after, sequence, storage[slot].identity, storage[other].identity);
    }
  }

  lemma OthersAsBefore(o: Operation, after: Operation, sequence: nat, resource: string, other: string)
    requires other != resource && sequence !in o.steps
    requires after.steps == o.steps[sequence := CreationStep(1, resource)]
    ensures Creations(after, other) == Creations(o, other)
    ensures SomeCreated(o, other) ==> SomeCreated(after, other)
  {
    if SomeCreated(o, other) {
      var k :| k in Creations(o, other) && o.steps[k].outcome == Some(StepSucceeded);
      assert k in Creations(after, other) && after.steps[k] == o.steps[k];
    }
  }

  lemma OneMoreDone(
    first: map<string, Allocation>, before: map<string, Allocation>, after: map<string, Allocation>,
    done: set<string>, slot: string)
    requires StorageOnly(first, before, done) && slot in before && slot in after && DistinctResources(before)
    requires after == before[slot := before[slot].(presence := after[slot].presence)]
    ensures StorageOnly(first, after, done + {slot}) && DistinctResources(after)
  {
  }

  lemma DoneIsMore(
    first: map<string, Allocation>, after: map<string, Allocation>, done: set<string>, slots: set<string>)
    requires StorageOnly(first, after, done) && done <= slots
    ensures StorageOnly(first, after, slots)
  {
  }

  /** All these volumes are made and proved to be, except the ones left, which are as at first. */
  ghost predicate VolumesDone(
    first: map<string, Allocation>, now: map<string, Allocation>, o: Operation, slots: set<string>, left: set<string>,
    volumes: string -> VolumeWorld)
  {
    && left <= slots <= now.Keys && StorageOnly(first, now, slots - left) && DistinctResources(now)
    && (forall slot | slot in left :: Creations(o, now[slot].identity) == {} && now[slot] == first[slot])
    && (forall slot | slot in slots && slot !in left ::
          && now[slot].presence == Present && SomeCreated(o, now[slot].identity)
          && VolumeWorks(first[slot].presence, volumes(slot)))
    && forall slot | slot in slots :: now[slot].identity != ""
  }

  lemma NoneDone(o: Operation, storage: map<string, Allocation>, slots: set<string>, volumes: string -> VolumeWorld)
    requires NoVolumeSteps(o) && slots <= storage.Keys && DistinctResources(storage)
    requires forall slot | slot in slots :: storage[slot].identity != ""
    ensures VolumesDone(storage, storage, o, slots, slots, volumes)
  {
    forall slot | slot in slots ensures Creations(o, storage[slot].identity) == {} {}
  }

  lemma NextVolume(
    first: map<string, Allocation>, now: map<string, Allocation>, o: Operation, slots: set<string>, left: set<string>,
    volumes: string -> VolumeWorld, slot: string)
    requires VolumesDone(first, now, o, slots, left, volumes) && slot in left
    ensures slot in now && slots <= first.Keys && now[slot] == first[slot] && now[slot].identity != ""
    ensures Creations(o, now[slot].identity) == {}
    ensures StorageOnly(first, now, slots - left) && DistinctResources(now) && slots - left + {slot} <= slots
  {
  }

  lemma OneVolumeMore(
    first: map<string, Allocation>, before: map<string, Allocation>, now: map<string, Allocation>, o: Operation,
    after: Operation, sequence: nat, slots: set<string>, left: set<string>, volumes: string -> VolumeWorld, slot: string)
    requires VolumesDone(first, before, o, slots, left, volumes) && slot in left && slot in now && sequence !in o.steps
    requires now == before[slot := before[slot].(presence := now[slot].presence)] && now[slot].presence == Present
    requires after.steps == o.steps[sequence := CreationStep(1, before[slot].identity)]
    requires VolumeWorks(first[slot].presence, volumes(slot))
    ensures VolumesDone(first, now, after, slots, left - {slot}, volumes)
  {
    hide StorageOnly, Creations, SomeCreated, VolumeWorks, DistinctResources;
    OneMoreDone(first, before, now, slots - left, slot);
    CreatedOne(o, after, sequence, before, slot);
    assert slots - (left - {slot}) == slots - left + {slot};
  }

  lemma AllDone(
    first: map<string, Allocation>, now: map<string, Allocation>, o: Operation, slots: set<string>,
    volumes: string -> VolumeWorld)
    requires VolumesDone(first, now, o, slots, {}, volumes)
    ensures slots <= now.Keys && StorageOnly(first, now, slots)
    ensures forall slot | slot in slots ::
      && now[slot].presence == Present && SomeCreated(o, now[slot].identity)
      && slot in first && VolumeWorks(first[slot].presence, volumes(slot))
  {
    assert slots - {} == slots;
  }

  /** Making the directories leaves the volumes as they were, and every resource its own. */
  lemma VolumesUntouched(before: map<string, Allocation>, after: map<string, Allocation>)
    requires StorageOnly(before, after, Slots(before, Bind))
    ensures forall slot | slot in Slots(before, Volume) :: slot in after && after[slot] == before[slot]
    ensures DistinctResources(before) ==> DistinctResources(after)
  {
  }

  /** The row when the n-th stage went wrong: every stage before it worked, and its own step says how it ended. */
  ghost predicate Broke(o: Operation, first: nat, n: nat, instance: string, container: string, error: StageError) {
    && 0 < n <= 7 && |o.steps| == first + n
    && (forall k | first < k < first + n :: k in o.steps && o.steps[k] == StageStep(k - first - 1, instance, container))
    && first + n in o.steps
    && o.steps[first + n] == StageStep(n - 1, instance, container).(
         outcome := Some(if error == EffectFailed then StepFailed else StepUnknown))
    && o.status == (if error == EffectFailed then Failed else OutcomeUnknown)
    && o.phase == PhaseOf(ORDER[n - 1])
  }

  lemma BrokeHere(
    before: Operation, after: Operation, first: nat, n: nat, instance: string, container: string, error: StageError)
    requires n < 7 && Staged(before, first, n, instance, container) && first + n + 1 !in before.steps
    requires after.steps == before.steps[first + n + 1 := StageStep(n, instance, container).(
      outcome := Some(if error == EffectFailed then StepFailed else StepUnknown))]
    requires after.status == (if error == EffectFailed then Failed else OutcomeUnknown) && after.phase == PhaseOf(ORDER[n])
    ensures Broke(after, first, n + 1, instance, container, error)
  {
    hide StageStep, PhaseOf;
  }

  /** Some directory was made before this creation, which then has nothing to do with it. */
  predicate SomeBindIsOld(storage: map<string, Allocation>) {
    exists slot :: slot in storage && storage[slot].how == Bind && storage[slot].presence != NotMaterialized
  }

  lemma StartingIsSixth(ran: seq<Stage>)
    requires |ran| <= 7 && ran == ORDER[..|ran|]
    ensures Starting in ran <==> |ran| > 5
  {
    if |ran| > 5 { assert ran[5] == Starting; }
  }

  lemma MarkedKnown(before: map<string, Allocation>, after: map<string, Allocation>)
    requires StorageOnly(before, after, before.Keys)
    requires forall slot | slot in before :: before[slot].initialization == NotAttempted
    requires forall slot | slot in after :: after[slot].presence == Present
    ensures forall slot | slot in after :: after[slot].initialization == NotAttempted
    ensures forall slot | slot in Marked(after) ::
      Marked(after)[slot].presence == Present && Marked(after)[slot].initialization == MayHaveInitialized
    ensures forall slot | slot in MarkReady(Marked(after)) ::
      MarkReady(Marked(after))[slot].presence == Present && MarkReady(Marked(after))[slot].initialization == ReadyObserved
  {
  }

  // The coordinator ---------------------------------------------------------------------------------

  class Coordinator {
    const op: string
    const instance: string
    const container: string
    /** How each stage's effect turns out. */
    const works: Stage -> Work
    /** The operation's own row; the other rows of the instance are in rest. */
    var row: Operation
    var rest: Cell
    /** Stages whose effect was started, in order. */
    var ran: seq<Stage>

    constructor (cell: Cell, op: string, instance: string, container: string, works: Stage -> Work)
      requires op in cell.ops
      ensures Rows() == cell && ran == [] && this.op == op && this.instance == instance
      ensures this.container == container && this.works == works && row == cell.ops[op] && rest == cell
    {
      this.op, this.instance, this.container, this.works := op, instance, container, works;
      rest, row, ran := cell, cell.ops[op], [];
      new;
      assert rest.ops[op := row] == rest.ops;
    }

    function Rows(): Cell
      reads this
    {
      rest.(ops := rest.ops[op := row])
    }

    /** Records the stage's step, runs its effect, and closes the step with what came of it. */
    method RunStage(sequence: nat, stage: Stage, resource: string) returns (error: Option<StageError>)
      requires Running(row, sequence) && resource != ""
      modifies `row, `ran
      ensures ran == old(ran) + [stage]
      ensures error == ErrorOf(works(stage))
      ensures error.None? ==> Running(row, sequence + 1) && row == old(row).(
        phase := PhaseOf(stage), steps := old(row).steps[sequence := StepOf(stage, resource)])
      ensures error.Some? ==> row.status == StatusOf(error.value)
      ensures error.Some? ==> row == old(row).(
        phase := PhaseOf(stage), status := if works(stage) == Fails then Failed else OutcomeUnknown,
        steps := old(row).steps[sequence := StepOf(stage, resource).(
          outcome := Some(if works(stage) == Fails then StepFailed else StepUnknown))])
    {
      hide Running, Journal.Sound, StepOf, PhaseOf, Journal.Apply;
      var step := StepOf(stage, resource);
      StageNames(stage, resource);
      StatusStays(row, sequence);
      StageAccepted(row, sequence, step, PhaseOf(stage));
      OutcomeAccepted(row, sequence, step, PhaseOf(stage), OutcomeOf(works(stage)));
      row := row.(steps := row.steps[sequence := step.(outcome := None)]);
      row := row.(status := Executing, phase := PhaseOf(stage));
      ran := ran + [stage];
      var work := works(stage);
      row := Journal.Closed(row, sequence, OutcomeOf(work));
      assert row.steps == old(row).steps[sequence := step.(outcome := Some(OutcomeOf(work)))];
      error := ErrorOf(work);
      if error.Some? { row := row.(status := StatusOf(error.value)); }
    }

    // Storage -------------------------------------------------------------------------------------

    /** Records one closed step of the storage phase. */
    method CloseStep(sequence: nat, command: Command, resource: string, expects: Expected)
      requires Running(row, sequence) && resource != ""
      modifies `row
      ensures Running(row, sequence + 1)
      ensures row == old(row).(
        steps := old(row).steps[sequence := Step(1, command, resource, expects, Some(StepSucceeded))])
    {
      hide Running, Journal.Sound, Journal.Apply;
      var step := Step(1, command, resource, expects, Some(StepSucceeded));
      StageAccepted(row, sequence, step, "storage");
      OutcomeAccepted(row, sequence, step, row.phase, StepSucceeded);
      row := row.(steps := row.steps[sequence := step.(outcome := None)]);
      row := Journal.Closed(row, sequence, StepSucceeded);
      assert row.steps == old(row).steps[sequence := step];
    }

    method SetStorage(slot: string, allocation: Allocation)
      modifies `rest
      ensures rest == old(rest).(storage := old(rest).storage[slot := allocation])
    {
      rest := rest.(storage := rest.storage[slot := allocation]);
    }

    /** Records the directories that were created, one allocation at a time. */
    method RecordBinds(slots: set<string>, evidence: map<string, string>) returns (ok: bool)
      requires Creates(row.kind) && row.status == Executing
      requires forall slot | slot in slots ::
        slot in rest.storage && rest.storage[slot].how == Bind && rest.storage[slot].presence == NotMaterialized
      modifies `rest
      ensures rest == old(rest).(storage := rest.storage) && StorageOnly(old(rest).storage, rest.storage, slots)
      ensures ok <==> slots <= evidence.Keys && forall slot | slot in slots :: LowerHex64(evidence[slot])
      ensures ok ==> forall slot | slot in slots :: rest.storage[slot].presence == Present
    {
      hide LowerHex64;
      if !(slots <= evidence.Keys) { return false; }
      var left := slots;
      while left != {}
        invariant left <= slots && rest == old(rest).(storage := rest.storage)
        invariant StorageOnly(old(rest).storage, rest.storage, slots - left)
        invariant forall slot | slot in slots && slot !in left ::
          rest.storage[slot].presence == Present && LowerHex64(evidence[slot])
        decreases |left|
      {
        var slot :| slot in left;
        var saved := rest.storage[slot];
        if !LowerHex64(evidence[slot]) { return false; }
        assert RecordBind(Rows(), op, slot, saved.identity, evidence[slot]).Ok?;
        SetStorage(slot, saved.(evidence := evidence[slot], presence := Present));
        left := left - {slot};
      }
      ok := true;
    }

    /** One volume, through its driver; if it becomes usable, exactly one closed step was added. */
    method EnsureVolume(sequence: nat, slot: string, v: VolumeWorld) returns (ok: bool)
      requires Running(row, sequence) && slot in rest.storage && rest.storage[slot].identity != ""
      requires Creations(row, rest.storage[slot].identity) == {}
      modifies `rest, `row
      ensures ok <==> VolumeWorks(old(rest).storage[slot].presence, v)
      ensures slot in rest.storage && rest == old(rest).(storage := old(rest).storage[slot :=
        old(rest).storage[slot].(presence := rest.storage[slot].presence)])
      ensures row == old(row).(steps := row.steps)
      ensures ok ==> Running(row, sequence + 1) && rest.storage[slot].presence == Present
      ensures ok ==> row.steps == old(row).steps[sequence := CreationStep(1, rest.storage[slot].identity)]
    {
      hide SentSafely, SomeCreated, AllFailedBefore, ClosedExcept, Running, Creations;
      ghost var start := row;
      var saved := rest.storage[slot];
      RunningIsNext(row, sequence);
      var driver := new VolumeDriver(saved.identity, row, saved.presence, v.checks, v.creates, ENOUGH);
      var outcome := driver.Ensure(1, sequence);
      row := driver.op;
      SetStorage(slot, saved.(presence := driver.presence));
      ok := outcome == Usable;
      if ok { GrownRuns(start, sequence, CreationStep(1, saved.identity)); }
    }

    /** One of several volumes. */
    method EnsureNext(
      sequence: nat, slot: string, volumes: string -> VolumeWorld, ghost start: map<string, Allocation>,
      ghost slots: set<string>, ghost left: set<string>)
      returns (ok: bool)
      requires Running(row, sequence) && VolumesDone(start, rest.storage, row, slots, left, volumes) && slot in left
      modifies `rest, `row
      ensures rest == old(rest).(storage := rest.storage) && row == old(row).(steps := row.steps)
      ensures slots <= start.Keys && StorageOnly(start, rest.storage, slots)
      ensures if ok then Running(row, sequence + 1) && VolumesDone(start, rest.storage, row, slots, left - {slot}, volumes)
        else !VolumeWorks(start[slot].presence, volumes(slot))
    {
      hide Running, VolumesDone, VolumeWorks, Creations, SomeCreated, StorageOnly, DistinctResources;
      ghost var before, done := row, rest.storage;
      NextVolume(start, done, before, slots, left, volumes, slot);
      ok := EnsureVolume(sequence, slot, volumes(slot));
      OneMoreDone(start, done, rest.storage, slots - left, slot);
      DoneIsMore(start, rest.storage, slots - left + {slot}, slots);
      if !ok { return; }
      NextUnused(before, sequence);
      OneVolumeMore(start, done, rest.storage, before, row, sequence, slots, left, volumes, slot);
    }

    /** Ensures the volumes one after the other, each under the next number. */
    method EnsureVolumes(first: nat, slots: set<string>, volumes: string -> VolumeWorld) returns (next: nat, ok: bool)
      requires Running(row, first) && DistinctResources(rest.storage) && NoVolumeSteps(row)
      requires forall slot | slot in slots :: slot in rest.storage && rest.storage[slot].identity != ""
      modifies `rest, `row
      ensures rest == old(rest).(storage := rest.storage) && row == old(row).(steps := row.steps)
      ensures StorageOnly(old(rest).storage, rest.storage, slots)
      ensures ok ==> next == first + |slots| && Running(row, next)
      ensures ok ==> forall slot | slot in slots ::
        rest.storage[slot].presence == Present && SomeCreated(row, rest.storage[slot].identity)
      ensures ok <==> forall slot | slot in slots :: VolumeWorks(old(rest).storage[slot].presence, volumes(slot))
    {
      hide Running, VolumesDone, VolumeWorks, Creations, SomeCreated, StorageOnly, DistinctResources;
      ghost var start := rest.storage;
      next := first;
      var left := slots;
      NoneDone(row, start, slots, volumes);
      while left != {}
        invariant left <= slots && next + |left| == first + |slots| && Running(row, next)
        invariant rest == old(rest).(storage := rest.storage) && row == old(row).(steps := row.steps)
        invariant VolumesDone(start, rest.storage, row, slots, left, volumes)
        decreases |left|
      {
        var slot :| slot in left;
        ok := EnsureNext(next, slot, volumes, start, slots, left);
        if !ok { return; }
        next := next + 1;
        left := left - {slot};
      }
      AllDone(start, rest.storage, row, slots, volumes);
      ok := true;
    }

    /** Directories first, under one step for all of them, then the volumes under one step each. */
    method PrepareStorage(evidence: Option<map<string, string>>, volumes: string -> VolumeWorld)
      returns (r: Result<nat, StageError>)
      requires Running(row, 1) && Creates(row.kind) && instance != "" && DistinctResources(rest.storage)
      requires forall slot | slot in rest.storage :: rest.storage[slot].identity != ""
      modifies `rest, `row
      ensures rest == old(rest).(storage := rest.storage) && row == old(row).(steps := row.steps)
      ensures StorageOnly(old(rest).storage, rest.storage, old(rest).storage.Keys)
      ensures r.Ok? ==> r.value == StorageSteps(old(rest).storage) + 1 && Running(row, r.value)
      ensures r.Ok? ==> forall slot | slot in rest.storage :: rest.storage[slot].presence == Present
      ensures r.Ok? ==> forall slot | slot in Slots(old(rest).storage, Volume) ::
        SomeCreated(row, old(rest).storage[slot].identity)
      ensures r.Ok? <==> StorageWorks(old(rest).storage, evidence, volumes)
      ensures r.Err? ==> r.error == if SomeBindIsOld(old(rest).storage) then EffectFailed else EffectUnknown
    {
      hide Running, LowerHex64, SomeCreated, VolumeWorks, BindsWork, NoVolumeSteps;
      ghost var before := rest.storage;
      var next, created := PrepareBinds(evidence);
      if created.Some? { return Err(created.value); }
      ghost var half := rest.storage;
      SameSlots(before, half, Slots(before, Bind));
      VolumesUntouched(before, half);
      var ok;
      next, ok := EnsureVolumes(next, Slots(rest.storage, Volume), volumes);
      SameSlots(half, rest.storage, Slots(half, Volume));
      if ok { AllPresent(before, half, rest.storage); }
      r := if ok then Ok(next) else Err(EffectUnknown);
    }

    /** The directories, if there are any; all of them must be new. */
    method PrepareBinds(evidence: Option<map<string, string>>) returns (next: nat, error: Option<StageError>)
      requires Running(row, 1) && Creates(row.kind) && instance != ""
      modifies `rest, `row
      ensures rest == old(rest).(storage := rest.storage) && row == old(row).(steps := row.steps)
      ensures StorageOnly(old(rest).storage, rest.storage, Slots(old(rest).storage, Bind))
      ensures error.None? ==> Running(row, next) && NoVolumeSteps(row)
      ensures error.None? ==> next == if Slots(old(rest).storage, Bind) == {} then 1 else 2
      ensures error.None? ==> forall slot | slot in Slots(old(rest).storage, Bind) :: rest.storage[slot].presence == Present
      ensures error.None? <==> BindsWork(old(rest).storage, evidence)
      ensures error.Some? ==> error.value == if SomeBindIsOld(old(rest).storage) then EffectFailed else EffectUnknown
      ensures error.None? ==> !SomeBindIsOld(old(rest).storage)
    {
      hide Running, LowerHex64;
      NoStepsYet(row);
      var binds := Slots(rest.storage, Bind);
      if binds == {} { return 1, None; }
      if exists slot :: slot in binds && rest.storage[slot].presence != NotMaterialized { return 1, Some(EffectFailed); }
      var created := CreateBinds(binds, evidence);
      next, error := 2, if created then None else Some(EffectUnknown);
    }

    /** One step covers the whole set of directories; it stays open unless all of them were recorded. */
    method CreateBinds(binds: set<string>, evidence: Option<map<string, string>>) returns (ok: bool)
      requires Running(row, 1) && Creates(row.kind) && instance != ""
      requires binds == Slots(rest.storage, Bind)
      requires forall slot | slot in binds :: rest.storage[slot].presence == NotMaterialized
      modifies `rest, `row
      ensures rest == old(rest).(storage := rest.storage) && row == old(row).(steps := row.steps)
      ensures StorageOnly(old(rest).storage, rest.storage, binds)
      ensures ok ==> Running(row, 2) && NoVolumeSteps(row)
      ensures ok ==> forall slot | slot in binds :: rest.storage[slot].presence == Present
      ensures ok <==>
        (evidence.Some? && evidence.value.Keys == binds && forall slot | slot in binds :: LowerHex64(evidence.value[slot]))
    {
      hide Running, Journal.Sound, Journal.Apply, LowerHex64;
      var step := Step(1, CreateBind, instance, BindCreated, Some(StepSucceeded));
      StatusStays(row, 1);
      StageAccepted(row, 1, step, "storage");
      OutcomeAccepted(row, 1, step, row.phase, StepSucceeded);
      row := row.(steps := row.steps[1 := step.(outcome := None)]);
      if evidence.None? || evidence.value.Keys != binds { return false; }
      ok := RecordBinds(binds, evidence.value);
      if !ok { return; }
      row := Journal.Closed(row, 1, StepSucceeded);
      assert row.steps == old(row).steps[1 := step];
      NoStepsYet(old(row));
    }

    /** The next of the seven stages. */
    method NextStage(n: nat, first: nat) returns (error: Option<StageError>)
      requires n < 7 && Running(row, first + n + 1) && Staged(row, first, n, instance, container)
      requires instance != "" && container != "" && ran == ORDER[..n]
      modifies `row, `ran
      ensures ran == ORDER[..n + 1] && error == ErrorOf(works(ORDER[n]))
      ensures error.None? ==> Running(row, first + n + 2) && Staged(row, first, n + 1, instance, container)
      ensures error.None? ==> row == old(row).(phase := PhaseOf(ORDER[n]), steps := row.steps)
      ensures error.Some? ==> row.status == StatusOf(error.value)
      ensures error.Some? ==> Broke(row, first, |ran|, instance, container, error.value)
    {
      hide Running, StepOf, PhaseOf, Staged, Broke;
      ghost var before := row;
      var stage := ORDER[n];
      error := RunStage(first + n + 1, stage, ResourceOf(stage, instance, container));
      NextUnused(before, first + n + 1);
      if error.None? {
        StagedMore(before, row, first, n, instance, container);
      } else {
        BrokeHere(before, row, first, n, instance, container, error.value);
      }
    }

    /** Everything up to the verified, stopped container. */
    method BeforeStart(first: nat) returns (error: Option<StageError>)
      requires Running(row, first + 1) && |row.steps| == first && instance != "" && container != "" && ran == []
      modifies `row, `ran
      ensures Stopped(|ran|, error, 5)
      ensures error.None? ==> Running(row, first + 6) && Staged(row, first, 5, instance, container)
      ensures error.None? ==> row == old(row).(phase := PhaseOf(ORDER[4]), steps := row.steps)
      ensures error.Some? ==> row.status == StatusOf(error.value)
      ensures error.Some? ==> Broke(row, first, |ran|, instance, container, error.value)
    {
      hide Running, PhaseOf, Staged, Broke;
      assert Staged(row, first, 0, instance, container) by { NoneStaged(row, first, instance, container); }
      error := NextStage(0, first);
      if error.Some? { assert Stopped(1, error, 5); return; }
      error := NextStage(1, first);
      if error.Some? { assert Stopped(2, error, 5); return; }
      error := NextStage(2, first);
      if error.Some? { assert Stopped(3, error, 5); return; }
      error := NextStage(3, first);
      if error.Some? { assert Stopped(4, error, 5); return; }
      error := NextStage(4, first);
      assert Stopped(5, error, 5);
    }

    /** Starts the verified container and waits for it, then records that the instance is ready. */
    method StartAndFinish(first: nat) returns (error: Option<StageError>)
      requires Running(row, first + 6) && Staged(row, first, 5, instance, container) && Creates(row.kind)
      requires row.newSpec == Some(1) && instance != "" && Hex64(container) && ran == ORDER[..5]
      requires rest.applied.None? && MayBeReady(rest.storage)
      requires forall i | 0 <= i < 5 :: works(ORDER[i]) == Works
      modifies this
      ensures |ran| > 5 && Stopped(|ran|, error, 7)
      ensures error.None? ==>
        rest == old(rest).(storage := MarkReady(old(rest).storage), applied := Some(1))
        && row.status == Succeeded && Staged(row, first, 7, instance, container)
      ensures error.Some? ==> rest == old(rest) && row.status == StatusOf(error.value)
      ensures error.Some? ==> Broke(row, first, |ran|, instance, container, error.value)
    {
      hide Running, Staged, Hex64, Broke;
      assert container != "" by { HexNotEmpty(container); }
      error := NextStage(5, first);
      if error.Some? { assert Stopped(6, error, 7); return; }
      error := NextStage(6, first);
      assert Stopped(7, error, 7);
      if error.Some? { return; }
      ReadyAccepted(Rows(), op, first, instance, container);
      rest := rest.(storage := MarkReady(rest.storage), applied := Some(1));
      SameStaged(row, row.(status := Succeeded, phase := "ready"), first, instance, container);
      row := row.(status := Succeeded, phase := "ready");
      assert Stopped(7, error, 7);
    }

    /** The seven stages over prepared storage, with initialization marked before the start. */
    method RunStages(first: nat) returns (error: Option<StageError>)
      requires Running(row, first + 1) && |row.steps| == first && Creates(row.kind) && row.newSpec == Some(1)
      requires rest.applied.None? && instance != "" && Hex64(container) && ran == []
      requires Markable(rest.storage) && MayBeReady(Marked(rest.storage))
      modifies this
      ensures Stopped(|ran|, error, if |ran| <= 5 then 5 else 7) && (error.None? ==> |ran| == 7)
      ensures error.None? ==>
        && rest == old(rest).(storage := MarkReady(Marked(old(rest).storage)), applied := Some(1))
        && row.status == Succeeded && Staged(row, first, 7, instance, container)
      ensures error.Some? ==> row.status == StatusOf(error.value)
      ensures error.Some? ==> rest == old(rest) || rest == old(rest).(storage := Marked(old(rest).storage))
      ensures error.Some? && |ran| > 5 ==> rest == old(rest).(storage := Marked(old(rest).storage))
      ensures error.Some? && |ran| <= 5 ==> rest == old(rest)
      ensures error.Some? ==> Broke(row, first, |ran|, instance, container, error.value)
    {
      hide Running, Staged, Hex64, StatusOf, MarkReady, Marked, Markable, MayBeReady, PhaseOf, Broke;
      assert container != "" by { HexNotEmpty(container); }
      error := BeforeStart(first);
      if error.Some? { return; }
      MarkAccepted(Rows(), op, first, instance, container);
      rest := rest.(storage := Marked(rest.storage));
      error := StartAndFinish(first);
    }

    /**
     * The whole creation. It ends succeeded, with revision one applied, exactly when storage and all
     * seven stages work; otherwise no stage after the failing one was started. Ports are never touched.
     */
    method RunLocked(evidence: Option<map<string, string>>, volumes: string -> VolumeWorld)
      returns (error: Option<StageError>)
      requires row.status == Accepted && row.attempt == 1 && row.steps == map[] && Creates(row.kind)
      requires row.newSpec == Some(1) && rest.applied.None? && instance != "" && Hex64(container) && ran == []
      requires DistinctResources(rest.storage) && forall slot | slot in rest.storage ::
        rest.storage[slot].identity != "" && rest.storage[slot].initialization == NotAttempted
      modifies this
      ensures rest == old(rest).(storage := rest.storage, applied := rest.applied)
      ensures DataKept(old(rest).storage, rest.storage)
      ensures ran == [] <==> !StorageWorks(old(rest).storage, evidence, volumes)
      ensures ran == [] ==> error.Some?
      ensures ran != [] ==> exists n, of | 0 < n <= of <= 7 :: Stopped(n, error, of) && (error.None? ==> of == 7)
      ensures error.None? ==>
        && row.status == Succeeded && rest.applied == Some(1) && AllReady(rest.storage)
        && Staged(row, StorageSteps(old(rest).storage), 7, instance, container)
      ensures error.Some? ==> row.status == StatusOf(error.value) && rest.applied.None?
      ensures error.Some? && ran != [] ==>
        Broke(row, StorageSteps(old(rest).storage), |ran|, instance, container, error.value)
      ensures error.Some? && ran == [] ==>
        row.status == if SomeBindIsOld(old(rest).storage) then Failed else OutcomeUnknown
      ensures Starting in ran ==> forall slot | slot in rest.storage ::
        rest.storage[slot].presence == Present && rest.storage[slot].initialization in {MayHaveInitialized, ReadyObserved}
      ensures Starting !in ran ==> forall slot | slot in rest.storage :: rest.storage[slot].initialization == NotAttempted
      ensures error.None? <==>
        StorageWorks(old(rest).storage, evidence, volumes) && forall i | 0 <= i < 7 :: works(ORDER[i]) == Works
    {
      hide Running, Staged, Hex64, StorageWorks, StorageOnly, MarkReady, Marked, DataKept, AllReady, Markable,
        MayBeReady, StorageSteps, DistinctResources, SomeCreated, Broke, SomeBindIsOld;
      ghost var before := rest.storage;
      FreshRuns(row);
      row := row.(status := Executing, phase := "storage");
      var prepared := PrepareStorage(evidence, volumes);
      PreparedData(before, rest.storage);
      if prepared.Err? {
        row := row.(status := StatusOf(prepared.error));
        return Some(prepared.error);
      }
      error := RunPrepared(prepared.value - 1, before);
    }

    /** What follows once all storage is there. */
    method RunPrepared(first: nat, ghost before: map<string, Allocation>) returns (error: Option<StageError>)
      requires Running(row, first + 1) && Creates(row.kind) && row.newSpec == Some(1) && rest.applied.None?
      requires instance != "" && Hex64(container) && ran == [] && StorageOnly(before, rest.storage, before.Keys)
      requires forall slot | slot in before :: before[slot].initialization == NotAttempted
      requires forall slot | slot in rest.storage :: rest.storage[slot].presence == Present
      modifies this
      ensures rest == old(rest).(storage := rest.storage, applied := rest.applied) && DataKept(before, rest.storage)
      ensures Stopped(|ran|, error, if |ran| <= 5 then 5 else 7) && (error.None? ==> |ran| == 7)
      ensures error.None? ==>
        && row.status == Succeeded && rest.applied == Some(1) && AllReady(rest.storage)
        && Staged(row, first, 7, instance, container)
      ensures error.Some? ==> rest.applied.None? && row.status == StatusOf(error.value)
      ensures error.Some? ==> Broke(row, first, |ran|, instance, container, error.value)
      ensures if Starting in ran
        then forall slot | slot in rest.storage ::
          rest.storage[slot].presence == Present && rest.storage[slot].initialization in {MayHaveInitialized, ReadyObserved}
        else forall slot | slot in rest.storage :: rest.storage[slot].initialization == NotAttempted
    {
      hide Running, Staged, Hex64, StatusOf, StorageOnly, MarkReady, Marked, DataKept, AllReady, Markable, MayBeReady, Broke;
      RunningCounts(row, first + 1);
      PreparedData(before, rest.storage);
      MarkedData(before, rest.storage);
      MarkedKnown(before, rest.storage);
      error := RunStages(first);
      StartingIsSixth(ran);
    }

    /** Exactly the first n stages ran: all asked for and working, or all but the last working. */
    predicate Stopped(n: nat, error: Option<StageError>, of: nat)
      reads `ran
    {
      && 0 < n <= of <= 7 && ran == ORDER[..n]
      && (forall i | 0 <= i < n - 1 :: works(ORDER[i]) == Works)
      && error == ErrorOf(works(ORDER[n - 1])) && (error.None? ==> n == of)
    }
  }

  function ErrorOf(work: Work): Option<StageError> {
    match work case Works => None case Fails => Some(EffectFailed) case Unclear => Some(EffectUnknown)
  }

  function Slots(storage: map<string, Allocation>, how: Method): set<string> {
    set slot | slot in storage && storage[slot].how == how
  }

  /** Every directory is still to be made, and can be. */
  predicate BindsWork(storage: map<string, Allocation>, evidence: Option<map<string, string>>) {
    Slots(storage, Bind) != {} ==>
      && (forall slot | slot in Slots(storage, Bind) :: storage[slot].presence == NotMaterialized)
      && evidence.Some? && evidence.value.Keys == Slots(storage, Bind)
      && forall slot | slot in Slots(storage, Bind) :: LowerHex64(evidence.value[slot])
  }

  /** Every directory and volume of a fresh instance can be made. */
  predicate StorageWorks(
    storage: map<string, Allocation>, evidence: Option<map<string, string>>, volumes: string -> VolumeWorld)
  {
    && BindsWork(storage, evidence)
    && forall slot | slot in Slots(storage, Volume) :: VolumeWorks(storage[slot].presence, volumes(slot))
  }

  /** The same allocations of the same resources. */
  predicate DataKept(before: map<string, Allocation>, after: map<string, Allocation>) {
    && after.Keys == before.Keys
    && forall slot | slot in before ::
         after[slot].identity == before[slot].identity && after[slot].how == before[slot].how
         && after[slot].ownership == before[slot].ownership
  }

  predicate AllReady(storage: map<string, Allocation>) {
    forall slot | slot in storage :: storage[slot].presence == Present && storage[slot].initialization == ReadyObserved
  }

  lemma PreparedData(before: map<string, Allocation>, after: map<string, Allocation>)
    requires StorageOnly(before, after, before.Keys)
    ensures DataKept(before, after)
    ensures forall slot | slot in after :: slot in before && after[slot].initialization == before[slot].initialization
  {
  }

  /** From prepared storage through both marks. */
  lemma MarkedData(before: map<string, Allocation>, after: map<string, Allocation>)
    requires StorageOnly(before, after, before.Keys)
    requires forall slot | slot in before :: before[slot].initialization == NotAttempted
    requires forall slot | slot in after :: after[slot].presence == Present
    ensures Markable(after) && DataKept(before, Marked(after)) && MayBeReady(Marked(after))
    ensures DataKept(before, MarkReady(Marked(after))) && AllReady(MarkReady(Marked(after)))
  {
  }

  lemma HexNotEmpty(text: string)
    requires Hex64(text)
    ensures text != ""
  {
  }

  lemma RunningCounts(o: Operation, sequence: nat)
    requires Running(o, sequence)
    ensures sequence == |o.steps| + 1
  {
  }

  lemma FreshRuns(o: Operation)
    requires o.status == Accepted && o.attempt == 1 && o.steps == map[]
    ensures Running(o.(status := Executing, phase := "storage"), 1)
    ensures Journal.Apply(o, Journal.SetStatus(Executing, "storage")) == Ok(o.(status := Executing, phase := "storage"))
  {
  }

  lemma SameStaged(before: Operation, after: Operation, first: nat, instance: string, container: string)
    requires Staged(before, first, 7, instance, container) && after.steps == before.steps
    ensures Staged(after, first, 7, instance, container)
  {
  }

  lemma NoneStaged(o: Operation, first: nat, instance: string, container: string)
    requires |o.steps| == first
    ensures Staged(o, first, 0, instance, container)
  {
  }

  lemma NextUnused(o: Operation, sequence: nat)
    requires Running(o, sequence)
    ensures sequence !in o.steps
  {
  }

  /** Directories and volumes together are all the storage there is. */
  lemma AllPresent(before: map<string, Allocation>, half: map<string, Allocation>, after: map<string, Allocation>)
    requires StorageOnly(before, half, Slots(before, Bind)) && StorageOnly(half, after, Slots(half, Volume))
    requires forall slot | slot in Slots(before, Bind) :: half[slot].presence == Present
    requires forall slot | slot in Slots(half, Volume) :: after[slot].presence == Present
    ensures StorageOnly(before, after, before.Keys)
    ensures forall slot | slot in after :: after[slot].presence == Present
  {
    forall slot | slot in after ensures after[slot].presence == Present {
      assert before[slot].how == Bind ==> slot in Slots(before, Bind);
      assert half[slot].how == before[slot].how;
      assert before[slot].how == Volume ==> slot in Slots(half, Volume);
    }
  }

  lemma SameSlots(before: map<string, Allocation>, after: map<string, Allocation>, slots: set<string>)
    requires StorageOnly(before, after, slots)
    ensures forall how :: Slots(after, how) == Slots(before, how)
    ensures StorageOnly(before, after, before.Keys)
  {
  }

  lemma StagedMore(before: Operation, after: Operation, first: nat, n: nat, instance: string, container: string)
    requires n < 7 && Staged(before, first, n, instance, container) && first + n + 1 !in before.steps
    requires after.steps == before.steps[first + n + 1 := StageStep(n, instance, container)]
    ensures Staged(after, first, n + 1, instance, container)
  {
    hide StageStep;
  }

  /** Only these allocations changed, and only in where their data was found. */
  predicate StorageOnly(before: map<string, Allocation>, after: map<string, Allocation>, slots: set<string>) {
    && after.Keys == before.Keys
    && forall slot | slot in before ::
         SameData(before[slot], after[slot]) && (slot !in slots ==> after[slot] == before[slot])
  }

  lemma StageNames(stage: Stage, resource: string)
    ensures PhaseOf(stage) != ""
    ensures var step := StepOf(stage, resource);
      step.attempt == 1 && step.resource == resource && step.outcome == Some(StepSucceeded)
  {
  }

  function OutcomeOf(work: Work): StepOutcome {
    match work case Works => StepSucceeded case Fails => StepFailed case Unclear => StepUnknown
  }

  function StatusOf(error: StageError): Status {
    match error case EffectFailed => Failed case EffectUnknown => OutcomeUnknown
  }

  /** Preparing storage records where data is, never what it is or how far it was initialized. */
  predicate SameData(before: Allocation, after: Allocation) {
    && after.how == before.how && after.identity == before.identity && after.ownership == before.ownership
    && after.initialization == before.initialization
  }

  lemma StatusStays(o: Operation, sequence: nat)
    requires Running(o, sequence)
    ensures o.status == Executing
  {
  }
}
