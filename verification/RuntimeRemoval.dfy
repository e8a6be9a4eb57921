/** Removing an instance's containers and networks from an engine that may refuse or mislead. */
module RuntimeRemoval {
  import opened Wrappers
  import opened LedgerTypes
  import Journal

  // The engine ----------------------------------------------------------------------------------

  datatype Container = Container(project: string, scope: string, instance: string, service: string, status: string)

  datatype Network = Network(
    name: string, project: string, scope: string, instance: string, role: string, endpoints: set<string>)

  datatype Engine = Engine(containers: map<string, Container>, networks: map<string, Network>)

  datatype Change = StopContainer(id: string) | DropContainer(id: string) | DropNetwork(id: string)

  /** What the engine does with the n-th change it is sent: what it reports, and whether it acts. */
  datatype Answer = Answer(reported: bool, acted: bool)

  datatype Owner = Owner(scope: string, instance: string, project: string, saved: Option<string>)

  datatype Error = Uncertain | Rejected

  function Detach(networks: map<string, Network>, id: string): map<string, Network> {
    map n | n in networks :: networks[n].(endpoints := networks[n].endpoints - {id})
  }

  function Effect(e: Engine, c: Change): Engine {
    match c
    case StopContainer(id) =>
      if id in e.containers then
        Engine(e.containers[id := e.containers[id].(status := "exited")], Detach(e.networks, id))
      else e
    case DropContainer(id) => Engine(e.containers - {id}, Detach(e.networks, id))
    case DropNetwork(id) => e.(networks := e.networks - {id})
  }

  // What belongs to the instance ------------------------------------------------------------------

  function NetworkName(owner: Owner): string { owner.project + "_default" }

  function Containers(e: Engine, owner: Owner): set<string> {
    set id | id in e.containers && (e.containers[id].project == owner.project
      || e.containers[id].instance == owner.instance || owner.saved == Some(id))
  }

  function Networks(e: Engine, owner: Owner): set<string> {
    set id | id in e.networks && (e.networks[id].project == owner.project
      || e.networks[id].instance == owner.instance || e.networks[id].name == NetworkName(owner))
  }

  predicate OwnedContainer(c: Container, owner: Owner) {
    c.project == owner.project && c.scope == owner.scope && c.instance == owner.instance && c.service == "main"
  }

  predicate OwnedNetwork(n: Network, owner: Owner) {
    && n.project == owner.project && n.scope == owner.scope && n.instance == owner.instance
    && n.role == "default" && n.name == NetworkName(owner)
  }

  /** Everything that would be listed is fully owned, and its networks carry nobody else. */
  predicate Clean(e: Engine, owner: Owner) {
    && (forall id | id in Containers(e, owner) :: OwnedContainer(e.containers[id], owner))
    && (forall id | id in Networks(e, owner) ::
          OwnedNetwork(e.networks[id], owner) && e.networks[id].endpoints <= Containers(e, owner))
  }

  predicate ValidId(id: string) { Hex64(id) }

  predicate LowerHex32(text: string) {
    |text| == 32 && forall i | 0 <= i < 32 :: IsDigit(text[i]) || 'a' <= text[i] <= 'f'
  }

  predicate LabelChar(c: char) {
    IsDigit(c) || 'a' <= c <= 'z' || 'A' <= c <= 'Z' || c == '.' || c == '_' || c == '-'
  }

  predicate ValidLabel(text: string) {
    0 < |text| <= 128 && forall i | 0 <= i < |text| :: LabelChar(text[i])
  }

  predicate ValidOwner(owner: Owner, receipt: Receipt) {
    && LowerHex32(owner.instance) && owner.project == "cn-" + owner.instance && ValidLabel(owner.scope)
    && owner.instance == receipt.instance && owner.scope == receipt.scope
    && (owner.saved.Some? ==> ValidId(owner.saved.value))
  }

  predicate Ended(status: string) { status in {"exited", "created", "dead"} }

  /** Resources outside the instance are as they were, apart from endpoints of what was removed. */
  ghost predicate OthersUntouched(before: Engine, after: Engine, owner: Owner) {
    && (forall id | id in before.containers && id !in Containers(before, owner) ::
          id in after.containers && after.containers[id] == before.containers[id])
    && (forall id | id in after.containers :: id in before.containers)
    && (forall id | id in before.networks && id !in Networks(before, owner) ::
          && id in after.networks && after.networks[id].(endpoints := {}) == before.networks[id].(endpoints := {})
          && before.networks[id].endpoints - Containers(before, owner) <= after.networks[id].endpoints
             <= before.networks[id].endpoints)
    && (forall id | id in after.networks :: id in before.networks)
  }

  // The journal of a removal ----------------------------------------------------------------------

  function StepFor(c: Change, attempt: nat): Step {
    match c
    case StopContainer(id) => Step(attempt, ComposeStop, id, ContainerStopped, Some(StepSucceeded))
    case DropContainer(id) => Step(attempt, RemoveContainer, id, ContainerAbsent, Some(StepSucceeded))
    case DropNetwork(id) => Step(attempt, RemoveNetwork, id, StateObserved, Some(StepSucceeded))
  }

  /** The steps after the first n are those of these changes, in order. */
  ghost predicate Follow(n: nat, steps: map<nat, Step>, sent: seq<Change>, attempt: nat) {
    && |steps| == n + |sent|
    && forall k | n < k <= n + |sent| :: k in steps && steps[k] == StepFor(sent[k - n - 1], attempt)
  }

  /** One succeeded step was added for each change sent, in order. */
  ghost predicate OneStepPerChange(before: Operation, after: Operation, sent: seq<Change>) {
    && after == before.(steps := after.steps)
    && (forall k | k in before.steps :: k in after.steps && after.steps[k] == before.steps[k])
    && Follow(|before.steps|, after.steps, sent, before.attempt)
  }

  /** The operation may record steps and none is open. */
  ghost predicate Recordable(op: Operation) {
    Journal.Sound(op) && op.status == Executing && !Journal.AnyOpen(op.steps)
  }

  function Opened(op: Operation, c: Change): Operation {
    op.(steps := op.steps[|op.steps| + 1 := StepFor(c, op.attempt).(outcome := None)])
  }

  function Grown(op: Operation, c: Change): Operation {
    op.(steps := op.steps[|op.steps| + 1 := StepFor(c, op.attempt)])
  }

  /** A change was sent and nobody knows what came of it. */
  function Doubtful(op: Operation, c: Change): Operation {
    op.(steps := op.steps[|op.steps| + 1 := StepFor(c, op.attempt).(outcome := Some(StepUnknown))])
  }

  function RecordOf(op: Operation, c: Change): Journal.Call {
    var step := StepFor(c, op.attempt);
    Journal.Record(|op.steps| + 1, op.attempt, step.command, c.id, step.expected)
  }

  lemma RecordAccepted(op: Operation, c: Change)
    requires Recordable(op) && c.id != ""
    ensures Journal.Apply(op, RecordOf(op, c)) == Ok(Opened(op, c)) && Journal.Sound(Opened(op, c))
  {
    Journal.LastIsCount(op.steps);
    if |op.steps| in op.steps { assert op.steps[|op.steps|].outcome.Some?; }
    Journal.CallKeeps(op, RecordOf(op, c));
  }

  lemma FinishAccepted(op: Operation, c: Change)
    requires Recordable(op) && Journal.Sound(Opened(op, c))
    ensures Journal.Apply(Opened(op, c), Journal.Finish(|op.steps| + 1, StepSucceeded)) == Ok(Grown(op, c))
    ensures Recordable(Grown(op, c))
  {
    hide StepFor, Journal.AttemptsRise, Journal.OpenAtEnd;
    var finish := Journal.Finish(|op.steps| + 1, StepSucceeded);
    SucceededStep(c, op.attempt);
    assert Journal.Closed(Opened(op, c), |op.steps| + 1, StepSucceeded).steps == Grown(op, c).steps;
    Journal.CallKeeps(Opened(op, c), finish);
  }

  lemma SucceededStep(c: Change, attempt: nat)
    ensures StepFor(c, attempt).outcome == Some(StepSucceeded)
  {
  }

  /** The journal accepts the step of a change, and its success once the change was seen to work. */
  lemma JournalAccepts(op: Operation, c: Change)
    requires Recordable(op) && c.id != ""
    ensures Journal.Apply(op, RecordOf(op, c)) == Ok(Opened(op, c))
    ensures Journal.Apply(Opened(op, c), Journal.Finish(|op.steps| + 1, StepSucceeded)) == Ok(Grown(op, c))
    ensures Journal.Sound(Opened(op, c)) && Recordable(Grown(op, c))
  {
    hide Recordable, StepFor, Journal.Apply, Journal.Sound;
    RecordAccepted(op, c);
    FinishAccepted(op, c);
  }

  lemma DoubtAccepted(op: Operation, c: Change)
    ensures Journal.Apply(Opened(op, c), Journal.Finish(|op.steps| + 1, StepUnknown)) == Ok(Doubtful(op, c))
    ensures Journal.Closed(Opened(op, c), |op.steps| + 1, StepUnknown) == Doubtful(op, c)
  {
    assert Journal.Closed(Opened(op, c), |op.steps| + 1, StepUnknown).steps == Doubtful(op, c).steps;
  }

  lemma NextIsNew(op: Operation)
    requires Recordable(op)
    ensures |op.steps| + 1 !in op.steps
  {
  }

  lemma FollowMore(n: nat, steps: map<nat, Step>, sent: seq<Change>, c: Change, attempt: nat)
    requires |steps| + 1 !in steps && Follow(n, steps, sent, attempt)
    ensures Follow(n, steps[|steps| + 1 := StepFor(c, attempt)], sent + [c], attempt)
  {
    hide StepFor;
  }

  lemma OneMoreStep(before: Operation, mid: Operation, sent: seq<Change>, c: Change)
    requires |mid.steps| + 1 !in mid.steps && OneStepPerChange(before, mid, sent)
    ensures OneStepPerChange(before, Grown(mid, c), sent + [c])
  {
    hide Follow, StepFor;
    FollowMore(|before.steps|, mid.steps, sent, c, before.attempt);
  }
}
