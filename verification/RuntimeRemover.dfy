/** The removal itself: verify everything, then change one verified resource at a time. */
module RuntimeRemover {
  import opened Wrappers
  import opened LedgerTypes
  import opened RuntimeRemoval
  import Journal

  // What one change does to what belongs to the instance --------------------------------------------

  /** Resources of the instance that are still there, all of them as they were when verified. */
  ghost predicate Progress(start: Engine, now: Engine, owner: Owner) {
    && OthersUntouched(start, now, owner) && Clean(now, owner)
    && Containers(now, owner) <= Containers(start, owner) && Networks(now, owner) <= Networks(start, owner)
  }

  predicate Concerns(now: Engine, owner: Owner, c: Change) {
    match c
    case StopContainer(id) => id in Containers(now, owner)
    case DropContainer(id) => id in Containers(now, owner)
    case DropNetwork(id) => id in Networks(now, owner)
  }

  lemma EffectListed(now: Engine, owner: Owner, c: Change)
    requires Concerns(now, owner, c)
    ensures Containers(Effect(now, c), owner)
      == if c.DropContainer? then Containers(now, owner) - {c.id} else Containers(now, owner)
    ensures Networks(Effect(now, c), owner)
      == if c.DropNetwork? then Networks(now, owner) - {c.id} else Networks(now, owner)
  {
  }

  lemma EffectClean(now: Engine, owner: Owner, c: Change)
    requires Concerns(now, owner, c) && Clean(now, owner)
    ensures Clean(Effect(now, c), owner)
  {
    EffectListed(now, owner, c);
    var after := Effect(now, c);
    forall id | id in Networks(after, owner)
      ensures OwnedNetwork(after.networks[id], owner) && after.networks[id].endpoints <= Containers(after, owner)
    {
      assert OwnedNetwork(now.networks[id], owner) && now.networks[id].endpoints <= Containers(now, owner);
    }
  }

  lemma EffectLeavesOthers(start: Engine, now: Engine, owner: Owner, c: Change)
    requires Concerns(now, owner, c) && OthersUntouched(start, now, owner)
    requires Containers(now, owner) <= Containers(start, owner) && Networks(now, owner) <= Networks(start, owner)
    ensures OthersUntouched(start, Effect(now, c), owner)
  {
    hide Containers, Networks;
    assert c.DropNetwork? ==> c.id in Networks(start, owner);
    assert !c.DropNetwork? ==> c.id in Containers(start, owner);
  }

  lemma EffectProgresses(start: Engine, now: Engine, owner: Owner, c: Change)
    requires Progress(start, now, owner) && Concerns(now, owner, c)
    ensures Progress(start, Effect(now, c), owner)
    ensures Containers(Effect(now, c), owner)
      == if c.DropContainer? then Containers(now, owner) - {c.id} else Containers(now, owner)
    ensures Networks(Effect(now, c), owner)
      == if c.DropNetwork? then Networks(now, owner) - {c.id} else Networks(now, owner)
  {
    hide Containers, Networks, OthersUntouched, Clean, Effect, Concerns;
    EffectListed(now, owner, c);
    EffectClean(now, owner, c);
    EffectLeavesOthers(start, now, owner, c);
  }

  /** Every identity that would be listed has the form the engine gives them. */
  predicate ValidIds(e: Engine, owner: Owner) {
    (forall id | id in Containers(e, owner) :: ValidId(id)) && forall id | id in Networks(e, owner) :: ValidId(id)
  }

  lemma ContainerIsOwned(start: Engine, now: Engine, owner: Owner, id: string)
    requires Progress(start, now, owner) && id in Containers(now, owner)
    ensures id in now.containers && OwnedContainer(now.containers[id], owner)
  {
    hide OthersUntouched;
  }

  lemma NetworkIsOwned(start: Engine, now: Engine, owner: Owner, id: string)
    requires Progress(start, now, owner) && id in Networks(now, owner)
    ensures id in now.networks && OwnedNetwork(now.networks[id], owner)
    ensures now.networks[id].endpoints <= Containers(now, owner)
  {
    hide OthersUntouched;
  }

  lemma StoppedIsEnded(e: Engine, id: string)
    requires id in e.containers
    ensures var after := Effect(e, StopContainer(id)); id in after.containers && Ended(after.containers[id].status)
  {
  }

  // What was sent, in which order, and what is recorded of it --------------------------------------------

  /** The effect of a change is there to be seen. */
  predicate Done(e: Engine, c: Change) {
    match c
    case StopContainer(id) => id in e.containers ==> Ended(e.containers[id].status)
    case DropContainer(id) => id !in e.containers
    case DropNetwork(id) => id !in e.networks
  }

  predicate AllDone(e: Engine, sent: seq<Change>) {
    forall i | 0 <= i < |sent| :: Done(e, sent[i])
  }

  predicate StopSent(sent: seq<Change>, id: string) { StopContainer(id) in sent }

  /**
   * A container is removed only if it had ended at first or was told to stop before, and is told to stop
   * only if it was running at first; nothing else changes how a container is.
   */
  predicate Orderly(start: Engine, now: Engine, sent: seq<Change>) {
    && (forall i | 0 <= i < |sent| && sent[i].DropContainer? ::
          && sent[i].id in start.containers
          && (Ended(start.containers[sent[i].id].status) || StopSent(sent[..i], sent[i].id)))
    && (forall i | 0 <= i < |sent| && sent[i].StopContainer? ::
          sent[i].id in start.containers && !Ended(start.containers[sent[i].id].status))
    && (forall id | id in now.containers ::
          && id in start.containers
          && (now.containers[id].status == start.containers[id].status || StopSent(sent, id)))
  }

  /** A running container may be stopped, and one that has ended may be removed. */
  predicate Fits(now: Engine, c: Change) {
    c.DropNetwork? || (c.id in now.containers && (c.DropContainer? <==> Ended(now.containers[c.id].status)))
  }

  lemma NothingSent(start: Engine)
    ensures Orderly(start, start, []) && AllDone(start, [])
  {
  }

  lemma EffectKeepsStatus(now: Engine, c: Change)
    ensures var after := Effect(now, c);
      forall id | id in after.containers ::
        && id in now.containers
        && (after.containers[id].status == now.containers[id].status || c == StopContainer(id))
  {
  }

  lemma OrderlyMore(start: Engine, now: Engine, sent: seq<Change>, c: Change, after: Engine)
    requires Orderly(start, now, sent) && Fits(now, c) && (after == now || after == Effect(now, c))
    ensures Orderly(start, after, sent + [c])
  {
    hide Effect, Ended;
    EffectKeepsStatus(now, c);
    var all := sent + [c];
    forall i | 0 <= i < |all| && all[i].DropContainer?
      ensures all[i].id in start.containers
        && (Ended(start.containers[all[i].id].status) || StopSent(all[..i], all[i].id))
    {
      if i < |sent| { assert all[..i] == sent[..i] && all[i] == sent[i]; } else { assert all[..i] == sent; }
    }
    forall i | 0 <= i < |all| && all[i].StopContainer?
      ensures all[i].id in start.containers && !Ended(start.containers[all[i].id].status)
    {
      if i < |sent| {
        assert all[i] == sent[i];
      } else if StopSent(sent, c.id) {
        var j :| 0 <= j < |sent| && sent[j] == StopContainer(c.id);
      }
    }
    forall id | id in after.containers
      ensures id in start.containers
        && (after.containers[id].status == start.containers[id].status || StopSent(all, id))
    {
      assert StopSent(sent, id) ==> StopSent(all, id);
      assert c == StopContainer(id) ==> all[|sent|] == StopContainer(id);
    }
  }

  lemma DoneStays(now: Engine, c: Change, earlier: Change)
    requires Done(now, earlier)
    ensures Done(Effect(now, c), earlier)
  {
  }

  lemma AllDoneStay(now: Engine, c: Change, sent: seq<Change>)
    requires AllDone(now, sent)
    ensures AllDone(Effect(now, c), sent)
  {
    hide Done, Effect;
    forall i | 0 <= i < |sent| ensures Done(Effect(now, c), sent[i]) {
      DoneStays(now, c, sent[i]);
    }
  }

  /** Every change has its step; a step is succeeded only if its effect was there, and only the last may be in doubt. */
  ghost predicate Accounted(first: Operation, now: Operation, e: Engine, sent: seq<Change>) {
    || (OneStepPerChange(first, now, sent) && AllDone(e, sent))
    || (exists mid :: InDoubt(first, mid, now, e, sent))
  }

  ghost predicate InDoubt(first: Operation, mid: Operation, now: Operation, e: Engine, sent: seq<Change>) {
    && sent != []
    && var earlier, last := sent[..|sent| - 1], sent[|sent| - 1];
       OneStepPerChange(first, mid, earlier) && AllDone(e, earlier) && now in {Opened(mid, last), Doubtful(mid, last)}
  }

  lemma SentMore(sent: seq<Change>, before: seq<Change>, c: Change)
    requires before <= sent
    ensures (sent + [c])[|before|..] == sent[|before|..] + [c] && before < sent + [c]
    ensures sent[|before|..] == (sent + [c])[|before|..][..|sent| - |before|]
  {
  }

  class Remover {
    var engine: Engine
    var op: Operation
    var sent: seq<Change>
    var asked: nat
    /** Whether the n-th reading can be answered, and how the n-th change is treated. */
    const readable: nat -> bool
    const answers: nat -> Answer

    constructor (e: Engine, o: Operation, readable: nat -> bool, answers: nat -> Answer)
      ensures engine == e && op == o && sent == [] && this.readable == readable && this.answers == answers
    {
      engine, op, sent, asked := e, o, [], 0;
      this.readable, this.answers := readable, answers;
    }

    /** An engine that answers every question, and does and reports whatever it is sent. */
    ghost predicate Willing() {
      (forall n :: readable(n)) && forall n :: answers(n) == Answer(true, true)
    }

    method Read() returns (ok: bool)
      modifies `asked
      ensures Willing() ==> ok
    {
      ok := readable(asked);
      asked := asked + 1;
    }

    method ListContainers(owner: Owner) returns (r: Result<set<string>, Error>)
      modifies `asked
      ensures r.Ok? ==> r.value == Containers(engine, owner) && forall id | id in r.value :: ValidId(id)
      ensures Willing() && (forall id | id in Containers(engine, owner) :: ValidId(id)) ==> r.Ok?
    {
      var ok := Read();
      var ids := Containers(engine, owner);
      if !ok || exists id :: id in ids && !ValidId(id) { return Err(Uncertain); }
      r := Ok(ids);
    }

    method ListNetworks(owner: Owner) returns (r: Result<set<string>, Error>)
      modifies `asked
      ensures r.Ok? ==> r.value == Networks(engine, owner) && forall id | id in r.value :: ValidId(id)
      ensures Willing() && (forall id | id in Networks(engine, owner) :: ValidId(id)) ==> r.Ok?
    {
      var ok := Read();
      var ids := Networks(engine, owner);
      if !ok || exists id :: id in ids && !ValidId(id) { return Err(Uncertain); }
      r := Ok(ids);
    }

    method InspectContainer(id: string, owner: Owner) returns (r: Result<Container, Error>)
      modifies `asked
      ensures r.Ok? ==> id in engine.containers && r.value == engine.containers[id] && OwnedContainer(r.value, owner)
      ensures Willing() && id in engine.containers ==>
        (if OwnedContainer(engine.containers[id], owner) then r.Ok? else r == Err(Rejected))
    {
      var ok := Read();
      if !ok || id !in engine.containers { return Err(Uncertain); }
      if !OwnedContainer(engine.containers[id], owner) { return Err(Rejected); }
      r := Ok(engine.containers[id]);
    }

    method InspectNetwork(id: string, owner: Owner) returns (r: Result<Network, Error>)
      modifies `asked
      ensures r.Ok? ==> id in engine.networks && r.value == engine.networks[id] && OwnedNetwork(r.value, owner)
      ensures Willing() && id in engine.networks ==>
        (if OwnedNetwork(engine.networks[id], owner) then r.Ok? else r == Err(Rejected))
    {
      var ok := Read();
      if !ok || id !in engine.networks { return Err(Uncertain); }
      if !OwnedNetwork(engine.networks[id], owner) { return Err(Rejected); }
      r := Ok(engine.networks[id]);
    }

    /**
     * Records the step and sends the change. The step stays open until its result is seen, unless the
     * change is not reported as done, in which case nobody knows.
     */
    method Send(c: Change) returns (ok: bool)
      requires Recordable(op) && c.id != ""
      modifies `engine, `op, `sent
      ensures sent == old(sent) + [c]
      ensures engine == old(engine) || engine == Effect(old(engine), c)
      ensures Willing() ==> ok && engine == Effect(old(engine), c)
      ensures Journal.Apply(old(op), RecordOf(old(op), c)) == Ok(Opened(old(op), c))
      ensures ok ==> op == Opened(old(op), c)
      ensures !ok ==> op == Doubtful(old(op), c) && Journal.Apply(
        Opened(old(op), c), Journal.Finish(|old(op).steps| + 1, StepUnknown)) == Ok(op)
    {
      JournalAccepts(op, c);
      DoubtAccepted(op, c);
      var sequence := |op.steps| + 1;
      var answer := answers(|sent|);
      op := Opened(op, c);
      sent := sent + [c];
      if answer.acted { engine := Effect(engine, c); }
      ok := answer.reported;
      if !ok { op := Journal.Closed(op, sequence, StepUnknown); }
    }

    /** The postcondition was observed: the last step succeeded. */
    method Finish(ghost before: Operation, c: Change)
      requires Recordable(before) && c.id != "" && op == Opened(before, c)
      modifies `op
      ensures op == Grown(before, c) && Recordable(op)
    {
      JournalAccepts(before, c);
      var sequence := |op.steps|;
      op := Journal.Closed(op, sequence, StepSucceeded);
      assert op.steps == Grown(before, c).steps;
    }

    /** Everything listed is verified before anything is changed. */
    method VerifyAll(owner: Owner) returns (r: Result<(set<string>, set<string>), Error>)
      modifies `asked
      ensures r.Ok? ==> Clean(engine, owner) && r.value == (Containers(engine, owner), Networks(engine, owner))
      ensures r.Ok? ==> (forall id | id in r.value.0 :: ValidId(id)) && (forall id | id in r.value.1 :: ValidId(id))
      ensures Willing() && ValidIds(engine, owner) ==> (if Clean(engine, owner) then r.Ok? else r == Err(Rejected))
    {
      var containers := ListContainers(owner);
      if containers.Err? { return Err(containers.error); }
      var networks := ListNetworks(owner);
      if networks.Err? { return Err(networks.error); }
      var left := containers.value;
      while left != {}
        invariant left <= containers.value
        invariant forall id | id in containers.value && id !in left :: OwnedContainer(engine.containers[id], owner)
        decreases |left|
      {
        var id :| id in left;
        var seen := InspectContainer(id, owner);
        if seen.Err? { return Err(seen.error); }
        left := left - {id};
      }
      left := networks.value;
      while left != {}
        invariant left <= networks.value
        invariant forall id | id in networks.value && id !in left ::
          OwnedNetwork(engine.networks[id], owner) && engine.networks[id].endpoints <= containers.value
        decreases |left|
      {
        var id :| id in left;
        var seen := InspectNetwork(id, owner);
        if seen.Err? { return Err(seen.error); }
        if !(seen.value.endpoints <= containers.value) { return Err(Rejected); }
        left := left - {id};
      }
      r := Ok((containers.value, networks.value));
    }

    /** What holds between two changes. */
    ghost predicate Steady(start: Engine, first: Operation, owner: Owner, before: seq<Change>)
      reads this
    {
      && Progress(start, engine, owner) && Recordable(first) && Recordable(op)
      && before <= sent && OneStepPerChange(first, op, sent[|before|..])
      && Orderly(start, engine, sent[|before|..]) && AllDone(engine, sent[|before|..])
    }

    /** What holds whenever the removal ends, for whatever reason. */
    ghost predicate Halted(start: Engine, first: Operation, owner: Owner, before: seq<Change>)
      reads this
    {
      && Progress(start, engine, owner) && before <= sent
      && Orderly(start, engine, sent[|before|..]) && Accounted(first, op, engine, sent[|before|..])
    }

    /** Sends one change; the caller checks its effect before closing the step. */
    method Make(c: Change, ghost start: Engine, ghost first: Operation, owner: Owner, ghost before: seq<Change>)
      returns (ok: bool, ghost mid: Operation)
      requires Steady(start, first, owner, before) && c.id != "" && Concerns(engine, owner, c) && Fits(engine, c)
      modifies `engine, `op, `sent
      ensures mid == old(op) && sent == old(sent) + [c]
      ensures Halted(start, first, owner, before) && AllDone(engine, old(sent)[|before|..])
      ensures engine == old(engine) || engine == Effect(old(engine), c)
      ensures Willing() ==> ok && engine == Effect(old(engine), c)
      ensures Containers(engine, owner) >= Containers(old(engine), owner) - (if c.DropContainer? then {c.id} else {})
      ensures Containers(engine, owner) <= Containers(old(engine), owner)
      ensures Networks(engine, owner) >= Networks(old(engine), owner) - (if c.DropNetwork? then {c.id} else {})
      ensures Networks(engine, owner) <= Networks(old(engine), owner)
      ensures ok ==> op == Opened(mid, c)
    {
      hide Progress, Recordable, OneStepPerChange, Containers, Networks, Orderly, AllDone, Fits, Willing, Opened, Doubtful;
      mid := op;
      ghost var was, part := engine, sent[|before|..];
      EffectProgresses(start, engine, owner, c);
      AllDoneStay(engine, c, part);
      ok := Send(c);
      OrderlyMore(start, was, part, c, engine);
      SentMore(old(sent), before, c);
      assert (part + [c])[..|part|] == part;
      assert InDoubt(first, mid, op, engine, part + [c]);
    }

    /** Closes the step of a change whose effect was seen. */
    method Settle(
      c: Change, ghost mid: Operation, ghost start: Engine, ghost first: Operation, owner: Owner,
      ghost before: seq<Change>)
      requires Halted(start, first, owner, before) && Recordable(first) && Recordable(mid) && c.id != ""
      requires before < sent && sent[|sent| - 1] == c && OneStepPerChange(first, mid, sent[|before|..|sent| - 1])
      requires op == Opened(mid, c) && Done(engine, c) && AllDone(engine, sent[|before|..|sent| - 1])
      modifies `op
      ensures Steady(start, first, owner, before)
    {
      hide Progress, Recordable, OneStepPerChange, Orderly, Accounted, Done;
      Finish(mid, c);
      NextIsNew(mid);
      OneMoreStep(first, mid, sent[|before|..|sent| - 1], c);
      assert sent[|before|..] == sent[|before|..|sent| - 1] + [c];
    }

    /** Whether one container is gone. */
    method ContainerGone(id: string) returns (gone: bool)
      modifies `asked
      ensures gone ==> id !in engine.containers
      ensures Willing() ==> (gone <==> id !in engine.containers)
    {
      var ok := Read();
      gone := ok && id !in engine.containers;
    }

    method NetworkGone(id: string) returns (gone: bool)
      modifies `asked
      ensures gone ==> id !in engine.networks
      ensures Willing() ==> (gone <==> id !in engine.networks)
    {
      var ok := Read();
      gone := ok && id !in engine.networks;
    }

    /** Stops a running container, then sees that it has ended. */
    method StopIfRunning(
      id: string, owner: Owner, ghost start: Engine, ghost first: Operation, ghost before: seq<Change>)
      returns (error: Option<Error>)
      requires Steady(start, first, owner, before) && id in Containers(engine, owner) && ValidId(id)
      modifies `engine, `op, `sent, `asked
      ensures Halted(start, first, owner, before) && old(sent) <= sent
      ensures error.None? ==> Steady(start, first, owner, before)
      ensures error.None? ==> id in engine.containers && Ended(engine.containers[id].status)
      ensures error.None? ==>
        Containers(engine, owner) == Containers(old(engine), owner) && Networks(engine, owner) == Networks(old(engine), owner)
      ensures Willing() ==> error.None?
    {
      hide Progress, Recordable, OneStepPerChange, Containers, Networks, Willing, Effect, Orderly, AllDone, InDoubt, Ended;
      ContainerIsOwned(start, engine, owner, id);
      StoppedIsEnded(engine, id);
      var current := InspectContainer(id, owner);
      if current.Err? { return Some(current.error); }
      if Ended(current.value.status) { return None; }
      ghost var part := sent[|before|..];
      var ok, mid := Make(StopContainer(id), start, first, owner, before);
      if !ok { return Some(Uncertain); }
      ContainerIsOwned(start, engine, owner, id);
      var stopped := InspectContainer(id, owner);
      if stopped.Err? { return Some(stopped.error); }
      if !Ended(stopped.value.status) { return Some(Uncertain); }
      assert sent[|before|..|sent| - 1] == part;
      Settle(StopContainer(id), mid, start, first, owner, before);
      error := None;
    }

    method RemoveContainer(
      id: string, owner: Owner, ghost start: Engine, ghost first: Operation, ghost before: seq<Change>)
      returns (error: Option<Error>)
      requires Steady(start, first, owner, before) && id in Containers(engine, owner) && ValidId(id)
      modifies `engine, `op, `sent, `asked
      ensures Halted(start, first, owner, before) && old(sent) <= sent
      ensures error.None? ==> Steady(start, first, owner, before)
      ensures error.None? ==> Containers(engine, owner) == Containers(old(engine), owner) - {id}
      ensures error.None? ==> Networks(engine, owner) == Networks(old(engine), owner)
      ensures Willing() ==> error.None?
    {
      hide Progress, Recordable, OneStepPerChange, Networks, Willing, Orderly, AllDone, InDoubt, Ended;
      error := StopIfRunning(id, owner, start, first, before);
      if error.Some? { return; }
      ContainerIsOwned(start, engine, owner, id);
      var current := InspectContainer(id, owner);
      if current.Err? { return Some(current.error); }
      ghost var part := sent[|before|..];
      var ok, mid := Make(DropContainer(id), start, first, owner, before);
      if !ok { return Some(Uncertain); }
      var gone := ContainerGone(id);
      if !gone { return Some(Uncertain); }
      assert sent[|before|..|sent| - 1] == part;
      Settle(DropContainer(id), mid, start, first, owner, before);
    }

    method RemoveNetwork(
      id: string, owner: Owner, ghost start: Engine, ghost first: Operation, ghost before: seq<Change>)
      returns (error: Option<Error>)
      requires Steady(start, first, owner, before) && id in Networks(engine, owner) && ValidId(id)
      modifies `engine, `op, `sent, `asked
      ensures Halted(start, first, owner, before) && old(sent) <= sent
      ensures error.None? ==> Steady(start, first, owner, before)
      ensures error.None? ==> Networks(engine, owner) == Networks(old(engine), owner) - {id}
      ensures error.None? ==> Containers(engine, owner) == Containers(old(engine), owner)
      ensures Willing() && Containers(old(engine), owner) == {} ==> error.None?
    {
      hide Progress, Recordable, OneStepPerChange, Containers, Willing, Orderly, AllDone, InDoubt;
      NetworkIsOwned(start, engine, owner, id);
      var current := InspectNetwork(id, owner);
      if current.Err? { return Some(current.error); }
      if current.value.endpoints != {} { return Some(Rejected); }
      ghost var part := sent[|before|..];
      var ok, mid := Make(DropNetwork(id), start, first, owner, before);
      if !ok { return Some(Uncertain); }
      var gone := NetworkGone(id);
      if !gone { return Some(Uncertain); }
      assert sent[|before|..|sent| - 1] == part;
      Settle(DropNetwork(id), mid, start, first, owner, before);
      error := None;
    }

    /** Removes the verified resources one by one: containers first, then networks. */
    method RemoveEach(
      containers: set<string>, networks: set<string>, owner: Owner, ghost start: Engine, ghost first: Operation,
      ghost before: seq<Change>)
      returns (error: Option<Error>)
      requires Steady(start, first, owner, before)
      requires containers == Containers(engine, owner) && networks == Networks(engine, owner)
      requires (forall id | id in containers :: ValidId(id)) && forall id | id in networks :: ValidId(id)
      modifies `engine, `op, `sent, `asked
      ensures Halted(start, first, owner, before) && old(sent) <= sent
      ensures error.None? ==>
        Steady(start, first, owner, before) && Containers(engine, owner) == {} == Networks(engine, owner)
      ensures Willing() ==> error.None?
    {
      hide Progress, Recordable, OneStepPerChange, Containers, Networks, ValidId, Willing, Orderly, AllDone, InDoubt;
      var left := containers;
      error := None;
      while left != {}
        invariant Steady(start, first, owner, before) && old(sent) <= sent && left <= containers
        invariant left == Containers(engine, owner) && networks == Networks(engine, owner)
        decreases |left|
      {
        var id :| id in left;
        error := RemoveContainer(id, owner, start, first, before);
        if error.Some? { return; }
        left := left - {id};
      }
      left := networks;
      while left != {}
        invariant Steady(start, first, owner, before) && old(sent) <= sent && left <= networks
        invariant Containers(engine, owner) == {} && left == Networks(engine, owner)
        decreases |left|
      {
        var id :| id in left;
        error := RemoveNetwork(id, owner, start, first, before);
        if error.Some? { return; }
        left := left - {id};
      }
      error := None;
    }

    /**
     * Sends no change unless everything listed is fully owned and no foreign endpoint is attached; running
     * containers are stopped before they are removed, and no step is succeeded whose effect is not there.
     * On success nothing of the instance is left, nothing else changed, and every change has its step.
     */
    method RemoveRuntime(receipt: Receipt, owner: Owner) returns (error: Option<Error>)
      requires Recordable(op)
      modifies this
      ensures !ValidOwner(owner, receipt) || !Clean(old(engine), owner) ==>
        error.Some? && sent == old(sent) && engine == old(engine) && op == old(op)
      ensures OthersUntouched(old(engine), engine, owner)
      ensures old(sent) <= sent && Orderly(old(engine), engine, sent[|old(sent)|..])
      ensures Accounted(old(op), op, engine, sent[|old(sent)|..])
      ensures ForeignUntouched(old(engine), engine, owner)
      ensures error.None? ==> Containers(engine, owner) == {} == Networks(engine, owner)
      ensures error.None? ==> old(sent) <= sent && OneStepPerChange(old(op), op, sent[|old(sent)|..]) && Recordable(op)
      ensures Willing() && ValidIds(old(engine), owner) ==>
        error == if ValidOwner(owner, receipt) && Clean(old(engine), owner) then None else Some(Rejected)
    {
      hide Willing, Orderly, AllDone, InDoubt, ForeignUntouched, OneStepPerChange, Containers, Networks, ValidId,
        OthersUntouched, Clean, ValidOwner, Recordable;
      NothingChanged(engine, op, owner);
      ForeignIsOther(engine, engine, owner);
      NothingSent(engine);
      assert sent[|sent|..] == [];
      if !ValidOwner(owner, receipt) { return Some(Rejected); }
      var listed := VerifyAll(owner);
      if listed.Err? { return Some(listed.error); }
      ghost var start, first, before := engine, op, sent;
      error := RemoveEach(listed.value.0, listed.value.1, owner, start, first, before);
      ForeignIsOther(start, engine, owner);
      if error.Some? { return; }
      var containers := ListContainers(owner);
      if containers.Err? { return Some(containers.error); }
      var networks := ListNetworks(owner);
      if networks.Err? { return Some(networks.error); }
      if containers.value != {} || networks.value != {} { return Some(Uncertain); }
    }
  }

  /** Whatever carries any other label, name or role than this instance's own is as it was. */
  ghost predicate ForeignUntouched(before: Engine, after: Engine, owner: Owner) {
    && (forall id | id in before.containers ::
          var c := before.containers[id];
          c.project != owner.project || c.scope != owner.scope || c.instance != owner.instance || c.service != "main" ==>
            id in after.containers && after.containers[id] == c)
    && (forall id | id in before.networks ::
          var n := before.networks[id];
          n.project != owner.project || n.scope != owner.scope || n.instance != owner.instance || n.role != "default"
          || n.name != owner.project + "_default" ==>
            id in after.networks && after.networks[id].(endpoints := {}) == n.(endpoints := {}))
  }

  /** One container that answers to this instance without being wholly its own bars every change. */
  lemma HalfOwnedContainerSpoils(e: Engine, owner: Owner, id: string)
    requires id in e.containers
    requires var c := e.containers[id];
      && (c.project == owner.project || c.instance == owner.instance || owner.saved == Some(id))
      && (c.project != owner.project || c.scope != owner.scope || c.instance != owner.instance || c.service != "main")
    ensures !Clean(e, owner)
  {
    assert id in Containers(e, owner);
  }

  /** So does a network that is only half its own, or one with a stranger on it. */
  lemma HalfOwnedNetworkSpoils(e: Engine, owner: Owner, id: string)
    requires id in e.networks
    requires var n := e.networks[id];
      && (n.project == owner.project || n.instance == owner.instance || n.name == owner.project + "_default")
      && (n.project != owner.project || n.scope != owner.scope || n.instance != owner.instance || n.role != "default"
          || n.name != owner.project + "_default"
          || exists x :: x in n.endpoints && (x in e.containers ==>
               e.containers[x].project != owner.project && e.containers[x].instance != owner.instance
               && owner.saved != Some(x)))
    ensures !Clean(e, owner)
  {
    assert id in Networks(e, owner);
  }

  lemma ForeignIsOther(before: Engine, after: Engine, owner: Owner)
    requires OthersUntouched(before, after, owner) && (Clean(before, owner) || after == before)
    ensures ForeignUntouched(before, after, owner)
  {
  }

  lemma NothingChanged(e: Engine, op: Operation, owner: Owner)
    ensures OthersUntouched(e, e, owner) && OneStepPerChange(op, op, [])
  {
  }
}
