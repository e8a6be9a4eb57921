/** Rows of the durable store, grouped by the instance that owns them. */
module LedgerTypes {
  import opened Wrappers

  datatype Conflict =
    | Duplicate | StaleRevision | Missing | InvalidLifecycle | UnresolvedOperation | InvalidInput | Backend

  predicate IsLargest(keys: set<nat>, k: nat) {
    k in keys && forall j | j in keys :: j <= k
  }

  lemma LargestWithOneMore(rest: set<nat>, largest: nat, one: nat)
    requires IsLargest(rest, largest)
    ensures IsLargest(rest + {one}, if one <= largest then largest else one)
  {
  }

  lemma {:induction false} LargestExists(keys: set<nat>)
    requires keys != {}
    ensures exists k: nat :: IsLargest(keys, k)
  {
    var one :| one in keys;
    var rest := keys - {one};
    assert keys == rest + {one};
    if rest == {} {
      assert IsLargest(keys, one);
    } else {
      LargestExists(rest);
      var largest: nat :| IsLargest(rest, largest);
      LargestWithOneMore(rest, largest, one);
    }
  }

  /** The largest of some numbers, or 0 if there is none. */
  ghost function Largest(keys: set<nat>): nat {
    if keys == {} then 0
    else
      LargestExists(keys);
      var k: nat :| IsLargest(keys, k);
      k
  }

  lemma LargestIs(keys: set<nat>)
    ensures keys != {} ==> Largest(keys) in keys
    ensures forall j | j in keys :: j <= Largest(keys)
  {
    if keys != {} { LargestExists(keys); }
  }

  // Operations and their steps -------------------------------------------------------

  datatype Kind = Create | Clone | Start | Stop | Restart | Rename | EditPort | Delete | Recover

  datatype Status = Accepted | Executing | Failed | AwaitingDecision | OutcomeUnknown | Succeeded | Abandoned

  datatype StepOutcome = StepSucceeded | StepFailed | StepUnknown

  datatype Command =
    | GenerateArtifact | ResolveImage | CreateBind | CreateVolume | ComposeCreate | ComposeStart
    | ComposeStop | ComposeRestart | RemoveContainer | RemoveNetwork | Observe

  datatype Expected =
    | ArtifactReady | ImageResolved | BindCreated | VolumeCreated | ContainerCreated | ContainerRunning
    | ContainerStopped | ContainerAbsent | StateObserved

  datatype Step = Step(
    attempt: nat, command: Command, resource: string, expected: Expected, outcome: Option<StepOutcome>)

  /** An operation row with its step rows, keyed by sequence number. */
  datatype Operation = Operation(
    kind: Kind,
    status: Status,
    phase: string,
    attempt: nat,
    expected: nat,
    oldSpec: Option<nat>,
    newSpec: Option<nat>,
    steps: map<nat, Step>)

  predicate Terminal(status: Status) { status == Succeeded || status == Abandoned }

  predicate Unresolved(op: Operation) { !Terminal(op.status) }

  /** A failed, waiting or unknown operation: the states from which a user decides. */
  predicate Undecided(status: Status) { status in {Failed, AwaitingDecision, OutcomeUnknown} }

  predicate Creates(kind: Kind) { kind == Create || kind == Clone }

  predicate Lifecycles(kind: Kind) { kind in {Start, Stop, Restart} }

  // Ports -----------------------------------------------------------------------------

  datatype Endpoint = Endpoint(ip: string, host: u16)

  datatype Port = Port(at: Endpoint, container: u16)

  type Bindings = map<string, Port>

  const LOOPBACK := "127.0.0.1"

  datatype ReservationStatus = Held | Committed | Released

  /** First reservations are named by slot alone, later ones also by the revision that asked for them. */
  datatype ReservationId = Initial(slot: string) | Revised(slot: string, revision: nat)

  datatype Reservation = Reservation(at: Endpoint, status: ReservationStatus)

  type Reservations = map<ReservationId, Reservation>

  predicate Active(r: Reservation) { r.status != Released }

  /** A collision-free digest of a port map. */
  datatype PortsHash = PortsHash(ports: Bindings)

  datatype Pending = Pending(base: nat, candidate: nat, hash: PortsHash, listed: set<ReservationId>)

  // Storage ---------------------------------------------------------------------------

  datatype Method = Bind | Volume

  datatype Ownership = Assigned | Retained

  datatype Presence = NotMaterialized | Present | Absent | Unverified

  datatype Initialization = NotAttempted | MayHaveInitialized | ReadyObserved

  function Rank(i: Initialization): nat {
    match i case NotAttempted => 0 case MayHaveInitialized => 1 case ReadyObserved => 2
  }

  datatype Allocation = Allocation(
    how: Method, identity: string, evidence: string, ownership: Ownership,
    presence: Presence, initialization: Initialization)

  /** No two allocations are the same resource. */
  predicate DistinctResources(storage: map<string, Allocation>) {
    forall s, t | s in storage && t in storage && s != t :: storage[s].identity != storage[t].identity
  }

  // Instances -------------------------------------------------------------------------

  datatype Lifecycle = Managed | Retiring | Retired

  /** One instance with every row that refers to it. */
  datatype Cell = Cell(
    scope: string,
    target: string,
    lifecycle: Lifecycle,
    revision: nat,
    applied: Option<nat>,
    specs: map<nat, Bindings>,
    ops: map<string, Operation>,
    reservations: Reservations,
    pending: map<string, Pending>,
    storage: map<string, Allocation>)

  function CommittedRevisions(c: Cell): set<nat> {
    set id | id in c.ops && c.ops[id].status == Succeeded && c.ops[id].newSpec.Some? :: c.ops[id].newSpec.value
  }

  /** The revision shown to readers and clones: the largest one a succeeded operation brought in, or one. */
  ghost function CommittedRevision(c: Cell): nat {
    if CommittedRevisions(c) == {} then 1 else Largest(CommittedRevisions(c))
  }

  datatype Receipt = Receipt(
    scope: string, request: string, plan: Option<string>, confirmed: nat, hash: string,
    instance: string, operation: string)

  /** The whole store; owner is the instance column of the operations table. */
  datatype Db = Db(cells: map<string, Cell>, owner: map<string, string>, receipts: map<(string, string), Receipt>)

  predicate Hex64(text: string) {
    && |text| == 64
    && forall i | 0 <= i < 64 :: IsDigit(text[i]) || 'a' <= text[i] <= 'f' || 'A' <= text[i] <= 'F'
  }
}
