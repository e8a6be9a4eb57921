/** Publishing an artifact one action at a time, with a crash possible before each action. */
module ArtifactStoreObject {
  import opened Wrappers
  import opened ArtifactSpec

  function StagedCount(staging: map<string, Dir>, op: string): nat {
    if op in staging then |staging[op].files| else 0
  }

  /** Enough actions to bring any staging directory to the expected files. */
  function StageCost(staging: map<string, Dir>, op: string, input: Input): nat {
    StagedCount(staging, op) + 3 * |AllFiles(input)| + 2
  }

  /** Enough actions for any publication of this input. */
  function Cost(staging: map<string, Dir>, op: string, input: Input): nat {
    StageCost(staging, op, input) + 5
  }

  lemma FoundKeys(files: Tree)
    ensures Found(files).Keys == files.Keys
  {
  }

  lemma WrittenIsExpected(files: map<string, Bytes>, written: Tree)
    requires written == map path | path in files :: File(files[path], true)
    ensures Found(written) == Digests(files) && forall path | path in written :: written[path].flushed
  {
  }

  lemma MatchingFilesAreInput(files: Tree, input: Input)
    requires Found(files) == Digests(AllFiles(input))
    ensures forall path :: path in files <==> path in AllFiles(input)
    ensures forall path | path in AllFiles(input) :: files[path].bytes == AllFiles(input)[path]
  {
    assert Found(files).Keys == files.Keys && Digests(AllFiles(input)).Keys == AllFiles(input).Keys;
    forall path | path in AllFiles(input) ensures files[path].bytes == AllFiles(input)[path] {
      assert Found(files)[path] == Digests(AllFiles(input))[path];
    }
  }

  lemma VerifiedMatches(d: Disk, id: string)
    requires Verify(d, id).None?
    ensures id in d.records && (d.records[id].instance, id) in d.targets
    ensures Found(d.targets[(d.records[id].instance, id)].dir.files) == d.records[id].files
  {
    hide ValidRelative, ValidId, Found;
  }

  /** The invariants do not speak of staging directories. */
  lemma StagingIsFree(before: Disk, after: Disk)
    requires after == before.(staging := after.staging)
    ensures DiskOk(before) ==> DiskOk(after)
    ensures PublicIsDurable(before) ==> PublicIsDurable(after)
  {
  }

  lemma RenamedIsOk(before: Disk, after: Disk, op: string, input: Input, tree: Tree)
    requires DiskOk(before) && input.id in before.records && SameRecord(before.records[input.id], op, input)
    requires var key := (input.instance, input.id);
      && key !in before.targets && after.records == before.records && after.targets - {key} == before.targets
      && (key in after.targets ==> after.targets[key].dir == Dir(tree, true))
    requires Found(tree) == Digests(AllFiles(input)) && forall path | path in tree :: tree[path].flushed
    requires before.records[input.id].placement != Public
    ensures DiskOk(after) && (PublicIsDurable(before) ==> PublicIsDurable(after))
  {
    var key := (input.instance, input.id);
    forall k | k in after.targets
      ensures k.1 in after.records && after.records[k.1].instance == k.0
        && (!after.targets[k].edited ==>
              Found(after.targets[k].dir.files) == after.records[k.1].files && Flushed(after.targets[k].dir))
    {
      if k != key { assert k in after.targets - {key}; }
    }
    forall id | id in before.records && before.records[id].placement == Public && PublicIsDurable(before)
      ensures (before.records[id].instance, id) in after.targets && after.targets[(before.records[id].instance, id)].durable
    {
      assert (before.records[id].instance, id) in after.targets - {key};
    }
  }

  /** Only this artifact's placement changed. */
  predicate OnlyPlacement(before: Disk, after: Disk, id: string) {
    && after.targets == before.targets && id in before.records && id in after.records
    && after.records - {id} == before.records - {id}
    && after.records[id] == before.records[id].(placement := after.records[id].placement)
  }

  lemma OtherRecords(before: Disk, after: Disk, id: string)
    requires OnlyPlacement(before, after, id)
    ensures after.records.Keys == before.records.Keys
    ensures forall o | o in before.records && o != id :: after.records[o] == before.records[o]
  {
    forall o | o != id ensures o in after.records <==> o in before.records {
      assert o in after.records <==> o in after.records - {id};
    }
    forall o | o in before.records && o != id ensures after.records[o] == before.records[o] {
      assert (after.records - {id})[o] == (before.records - {id})[o];
    }
  }

  lemma PlacementIsFree(before: Disk, after: Disk, id: string)
    requires DiskOk(before) && OnlyPlacement(before, after, id)
    ensures DiskOk(after)
  {
    hide OnlyPlacement, ValidRelative, ValidId, Flushed;
    OtherRecords(before, after, id);
    assert after.targets == before.targets && after.records[id] == before.records[id].(placement := after.records[id].placement)
      by { PlacementMeans(before, after, id); }
    forall o | o in after.records ensures WellRecorded(after.records[o], o) {
      assert WellRecorded(before.records[o], o);
    }
  }

  lemma PlacementMeans(before: Disk, after: Disk, id: string)
    requires OnlyPlacement(before, after, id)
    ensures after.targets == before.targets && id in before.records && id in after.records
    ensures after.records[id] == before.records[id].(placement := after.records[id].placement)
  {
  }

  /** Recording a complete target as public. */
  lemma MarkedIsOk(before: Disk, after: Disk, op: string, input: Input)
    requires DiskOk(before) && OnlyPlacement(before, after, input.id)
    requires SameRecord(before.records[input.id], op, input) && (input.instance, input.id) in before.targets
    ensures DiskOk(after) && SameRecord(after.records[input.id], op, input)
    ensures after.records[input.id].placement == Public && Verify(before, input.id).None? ==> IsPublished(after, op, input)
    ensures PublicIsDurable(before) && before.targets[(input.instance, input.id)].durable ==> PublicIsDurable(after)
  {
    hide WellRecorded, Flushed, Verify;
    PlacementIsFree(before, after, input.id);
    OtherRecords(before, after, input.id);
    if Verify(before, input.id).None? {
      VerifiedMatches(before, input.id);
      MatchingFilesAreInput(before.targets[(input.instance, input.id)].dir.files, input);
    }
  }

  lemma RecordedIsOk(before: Disk, after: Disk, op: string, input: Input)
    requires DiskOk(before) && ValidInput(op, input)
    requires after == before.(records := after.records)
    requires after.records == (if input.id in before.records then before.records
      else before.records[input.id := RecordOf(op, input)])
    ensures DiskOk(after) && (PublicIsDurable(before) ==> PublicIsDurable(after))
    ensures forall key | key in before.targets :: key.1 in before.records
    ensures SameRecord(RecordOf(op, input), op, input) && RecordOf(op, input).placement == Staged
  {
    NewRecordIsWell(op, input);
  }

  lemma SameRecordNames(record: Record, op: string, input: Input)
    requires SameRecord(record, op, input)
    ensures record.instance == input.instance
  {
  }

  class ArtifactStore {
    var owners: map<string, string>
    var records: map<string, Record>
    var staging: map<string, Dir>
    var targets: map<Key, Published>
    /** Actions left before the process dies. */
    var budget: nat

    ghost function State(): Disk
      reads this
    {
      Disk(owners, records, staging, targets)
    }

    ghost predicate Valid()
      reads this
    {
      DiskOk(State())
    }

    constructor (operations: map<string, string>, actions: nat)
      ensures Valid() && PublicIsDurable(State()) && owners == operations && budget == actions
      ensures records == map[] && staging == map[] && targets == map[]
    {
      owners, records, staging, targets, budget := operations, map[], map[], map[], actions;
    }

    method Tick() returns (alive: bool)
      modifies `budget
      ensures alive == (old(budget) > 0) && budget == if alive then old(budget) - 1 else 0
    {
      alive := budget > 0;
      if alive { budget := budget - 1; }
    }

    // Staging -------------------------------------------------------------------------------------

    /** Creates, writes and flushes one staged file; a crash may leave any prefix of it. */
    method WriteFile(op: string, path: string, bytes: Bytes, cut: nat) returns (alive: bool)
      requires op in staging
      modifies `staging, `budget
      ensures op in staging && staging - {op} == old(staging) - {op}
      ensures staging[op].files.Keys <= old(staging)[op].files.Keys + {path}
      ensures alive == (old(budget) >= 3) && (alive ==> budget == old(budget) - 3)
      ensures alive ==> staging[op].files == old(staging)[op].files[path := File(bytes, true)]
    {
      alive := Tick();
      if !alive { return; }
      staging := staging[op := Dir(staging[op].files[path := File([], false)], false)];
      alive := Tick();
      if !alive {
        var n := if cut <= |bytes| then cut else |bytes|;
        staging := staging[op := Dir(staging[op].files[path := File(bytes[..n], false)], false)];
        return;
      }
      staging := staging[op := Dir(staging[op].files[path := File(bytes, false)], false)];
      alive := Tick();
      if !alive { return; }
      staging := staging[op := Dir(staging[op].files[path := File(bytes, true)], false)];
    }

    /** Writes every file into an empty staging directory. */
    method WriteStage(op: string, files: map<string, Bytes>, cut: nat) returns (alive: bool)
      requires op in staging && staging[op].files == map[]
      modifies `staging, `budget
      ensures op in staging && staging - {op} == old(staging) - {op}
      ensures staging[op].files.Keys <= files.Keys
      ensures old(budget) >= 3 * |files| ==> alive && budget == old(budget) - 3 * |files|
      ensures alive ==> staging[op].files == map path | path in files :: File(files[path], true)
    {
      var left := files.Keys;
      alive := true;
      while left != {}
        invariant alive && left <= files.Keys && op in staging
        invariant staging - {op} == old(staging) - {op}
        invariant staging[op].files == map path | path in files.Keys - left :: File(files[path], true)
        invariant old(budget) >= 3 * |files| ==> budget == old(budget) - 3 * (|files| - |left|)
        decreases |left|
      {
        var path :| path in left;
        left := left - {path};
        alive := WriteFile(op, path, files[path], cut);
        if !alive { return; }
      }
    }

    /** Deletes a staging directory file by file. */
    method RemoveStage(op: string) returns (alive: bool)
      requires op in staging
      modifies `staging, `budget
      ensures staging - {op} == old(staging) - {op}
      ensures op in staging ==> staging[op].files.Keys <= old(staging)[op].files.Keys
      ensures alive ==> op !in staging
      ensures old(budget) > |old(staging)[op].files| ==> alive && budget == old(budget) - |old(staging)[op].files| - 1
    {
      while staging[op].files != map[]
        invariant op in staging
        invariant staging - {op} == old(staging) - {op}
        invariant staging[op].files.Keys <= old(staging)[op].files.Keys
        invariant old(budget) > |old(staging)[op].files| ==>
          budget == old(budget) - |old(staging)[op].files| + |staging[op].files|
        decreases |staging[op].files|
      {
        alive := Tick();
        if !alive { return; }
        var path :| path in staging[op].files;
        staging := staging[op := Dir(staging[op].files - {path}, false)];
      }
      alive := Tick();
      if !alive { return; }
      staging := staging - {op};
    }

    /** Flushes files a crashed attempt may have left unflushed. */
    method FlushStage(op: string) returns (alive: bool)
      requires op in staging
      modifies `staging, `budget
      ensures op in staging && staging - {op} == old(staging) - {op}
      ensures Found(staging[op].files) == Found(old(staging)[op].files)
      ensures old(budget) >= |old(staging)[op].files| ==> alive && budget == old(budget) - |old(staging)[op].files|
      ensures alive ==> forall path | path in staging[op].files :: staging[op].files[path].flushed
    {
      ghost var start := staging[op].files;
      var left := staging[op].files.Keys;
      alive := true;
      while left != {}
        invariant alive && op in staging && staging[op].files.Keys == start.Keys
        invariant staging - {op} == old(staging) - {op}
        invariant left <= start.Keys
        invariant forall path | path in start :: staging[op].files[path].bytes == start[path].bytes
        invariant forall path | path in start && path !in left :: staging[op].files[path].flushed
        invariant old(budget) >= |start| ==> budget == old(budget) - (|start| - |left|)
        decreases |left|
      {
        var path :| path in left;
        left := left - {path};
        alive := Tick();
        if !alive { return; }
        staging := staging[op := Dir(staging[op].files[path := staging[op].files[path].(flushed := true)], staging[op].synced)];
      }
    }

    // Publishing ----------------------------------------------------------------------------------

    /** One database transaction: records the expected files, or compares them with what is recorded. */
    method RecordExpected(op: string, input: Input) returns (wasPublic: Option<bool>)
      requires Valid() && ValidInput(op, input)
      modifies `records
      ensures Valid()
      ensures wasPublic.None? <==>
        op !in owners || owners[op] != input.instance
        || (input.id in old(records) && !SameRecord(old(records)[input.id], op, input))
      ensures wasPublic.Some? ==> wasPublic.value == (input.id in old(records) && old(records)[input.id].placement == Public)
      ensures records == if wasPublic.Some? && input.id !in old(records)
        then old(records)[input.id := RecordOf(op, input)] else old(records)
    {
      if op !in owners || owners[op] != input.instance { return None; }
      if input.id in records {
        if !SameRecord(records[input.id], op, input) { return None; }
        return Some(records[input.id].placement == Public);
      }
      NewRecordIsWell(op, input);
      records := records[input.id := RecordOf(op, input)];
      wasPublic := Some(false);
    }

    method MarkPublished(id: string) returns (ok: bool)
      requires id in records
      modifies `records
      ensures ok == (old(records)[id].placement in {Staged, Public})
      ensures records == if ok then old(records)[id := old(records)[id].(placement := Public)] else old(records)
    {
      ok := records[id].placement in {Staged, Public};
      if ok { records := records[id := records[id].(placement := Public)]; }
    }

    predicate Foreign(op: string, input: Input)
      reads this
    {
      op in staging && !(staging[op].files.Keys <= AllFiles(input).Keys)
    }

    /** Empties the staging directory, whatever a crashed attempt left in it. */
    method FreshStage(op: string) returns (alive: bool)
      modifies `staging, `budget
      ensures staging - {op} == old(staging) - {op}
      ensures op in staging && op in old(staging) ==> staging[op].files.Keys <= old(staging)[op].files.Keys
      ensures op in staging && op !in old(staging) ==> staging[op].files == map[]
      ensures alive ==> op in staging && staging[op].files == map[]
      ensures old(budget) >= StagedCount(old(staging), op) + 2 ==>
        alive && budget + StagedCount(old(staging), op) + 2 >= old(budget)
    {
      if op in staging {
        alive := RemoveStage(op);
        if !alive { return; }
      }
      alive := Tick();
      if !alive { return; }
      staging := staging[op := Dir(map[], false)];
    }

    /** Brings the staging directory to the expected files, all flushed. */
    method PrepareStage(op: string, input: Input, cut: nat) returns (alive: bool)
      requires !Foreign(op, input)
      modifies `staging, `budget
      ensures staging - {op} == old(staging) - {op} && !Foreign(op, input)
      ensures alive ==> op in staging && Found(staging[op].files) == Digests(AllFiles(input))
      ensures alive ==> forall path | path in staging[op].files :: staging[op].files[path].flushed
      ensures old(budget) >= StageCost(old(staging), op, input) ==>
        alive && budget + StageCost(old(staging), op, input) >= old(budget)
    {
      hide Found, Digests;
      var files := AllFiles(input);
      ghost var start := staging;
      if op in staging && Found(staging[op].files) == Digests(files) {
        FoundKeys(staging[op].files);
        alive := FlushStage(op);
        FoundKeys(staging[op].files);
        return;
      }
      alive := FreshStage(op);
      if !alive { return; }
      alive := WriteStage(op, files, cut);
      if alive { WrittenIsExpected(files, staging[op].files); }
    }

    /** Flushes the staging directory's entries, moves it into place and flushes its new name. */
    method RenameStage(op: string, key: Key) returns (alive: bool)
      requires op in staging && key !in targets
      modifies `staging, `targets, `budget
      ensures staging - {op} == old(staging) - {op} && targets - {key} == old(targets)
      ensures op in staging ==> key !in targets && staging[op].files == old(staging)[op].files
      ensures op !in staging ==> key in targets && targets[key].dir == Dir(old(staging)[op].files, true)
      ensures op !in staging ==> !targets[key].edited
      ensures alive ==> op !in staging && targets[key].durable
      ensures op !in staging && !alive ==> !targets[key].durable
      ensures old(budget) == 2 ==> op !in staging && !alive
      ensures old(budget) >= 3 ==> alive && budget == old(budget) - 3
    {
      alive := Tick();
      if !alive { return; }
      staging := staging[op := staging[op].(synced := true)];
      alive := Tick();
      if !alive { return; }
      targets := targets[key := Published(staging[op], false, false)];
      staging := staging - {op};
      alive := Tick();
      if !alive { return; }
      targets := targets[key := targets[key].(durable := true)];
    }

    /** Checks the target once more and records it as public; shared by every successful path. */
    method ConfirmTarget(id: string) returns (r: Outcome)
      requires Valid() && id in records && (records[id].instance, id) in targets
      modifies `records, `budget
      ensures id in records && records - {id} == old(records) - {id}
      ensures old(records)[id].placement == Retained || Verify(old(State()), id).Some? ==> records == old(records)
      ensures records[id] == old(records)[id]
        || (old(records)[id].placement in {Staged, Public} && records[id] == old(records)[id].(placement := Public))
      ensures r == Crashed || r == match Verify(old(State()), id)
        case Some(error) => Rejected(error)
        case None => if old(records)[id].placement == Retained then Rejected(Unavailable) else Done
      ensures r == Done ==> records[id].placement == Public
      ensures old(budget) >= 2 ==> r != Crashed
    {
      hide Verify, DiskOk;
      var alive := Tick();
      if !alive { return Crashed; }
      var error := Verify(Disk(owners, records, staging, targets), id);
      if error.Some? { return Rejected(error.value); }
      var marked := MarkPublished(id);
      if !marked { return Rejected(Unavailable); }
      alive := Tick();
      r := if alive then Done else Crashed;
    }

    /** Moves a complete staging directory into place and records it. */
    method PlaceStage(op: string, input: Input) returns (r: Outcome)
      requires Valid() && input.id in records && SameRecord(records[input.id], op, input)
      requires records[input.id].placement != Public && (input.instance, input.id) !in targets
      requires op in staging && Found(staging[op].files) == Digests(AllFiles(input))
      requires forall path | path in staging[op].files :: staging[op].files[path].flushed
      modifies this
      ensures Valid() && OnlyConcerns(old(State()), State(), op, input)
      ensures r == Crashed || r == if old(records)[input.id].placement == Retained then Rejected(Unavailable) else Done
      ensures old(budget) >= 5 ==> r != Crashed
      ensures SameRecord(records[input.id], op, input)
      ensures records[input.id].placement in {old(records)[input.id].placement, Public}
      ensures r == Done ==> records[input.id].placement == Public
      ensures records[input.id].placement == Public ==>
        old(records)[input.id].placement == Staged && IsPublished(State(), op, input)
      ensures op in staging ==> staging[op].files == old(staging)[op].files
      ensures (input.instance, input.id) in targets ==> !targets[(input.instance, input.id)].edited
      ensures PublicIsDurable(old(State())) ==> PublicIsDurable(State())
    {
      hide Found, Digests, DiskOk, PublicIsDurable, IsPublished, AllFiles;
      ghost var start, tree := State(), staging[op].files;
      var alive := RenameStage(op, (input.instance, input.id));
      ghost var moved := State();
      RenamedIsOk(start, moved, op, input, tree);
      if !alive { return Crashed; }
      SameRecordNames(records[input.id], op, input);
      VerifiedAsRecorded(moved, input.id);
      r := ConfirmTarget(input.id);
      MarkedIsOk(moved, State(), op, input);
    }

    /** Publication when nothing occupies the target yet. */
    method PublishNew(op: string, input: Input, cut: nat) returns (r: Outcome)
      requires Valid() && input.id in records && SameRecord(records[input.id], op, input)
      requires records[input.id].placement != Public && (input.instance, input.id) !in targets
      modifies this
      ensures Valid() && OnlyConcerns(old(State()), State(), op, input)
      ensures r == Crashed || r == if old(Foreign(op, input)) then Rejected(Conflict)
        else if old(records)[input.id].placement == Retained then Rejected(Unavailable) else Done
      ensures old(budget) >= Cost(old(staging), op, input) ==> r != Crashed
      ensures SameRecord(records[input.id], op, input)
      ensures records[input.id].placement in {old(records)[input.id].placement, Public}
      ensures r == Done ==> records[input.id].placement == Public
      ensures records[input.id].placement == Public ==>
        old(records)[input.id].placement == Staged && IsPublished(State(), op, input)
      ensures old(!Foreign(op, input)) ==> !Foreign(op, input)
      ensures (input.instance, input.id) in targets ==> !targets[(input.instance, input.id)].edited
      ensures PublicIsDurable(old(State())) ==> PublicIsDurable(State())
    {
      hide Found, Digests, DiskOk, PublicIsDurable, IsPublished, RecordOf;
      if Foreign(op, input) { return Rejected(Conflict); }
      ghost var start := State();
      var alive := PrepareStage(op, input, cut);
      StagingIsFree(start, State());
      if !alive { return Crashed; }
      r := PlaceStage(op, input);
    }

    /** One whole publication, which a crash may cut off before any of its actions. */
    method Publish(op: string, input: Input, cut: nat) returns (r: Outcome)
      requires Valid()
      modifies this
      ensures Valid() && OnlyConcerns(old(State()), State(), op, input)
      ensures r == Crashed || r == Verdict(old(State()), op, input)
      ensures old(budget) >= Cost(old(staging), op, input) ==> r != Crashed
      ensures r == Done ==> IsPublished(State(), op, input)
      ensures Verdict(old(State()), op, input).Rejected? && !Unfinished(old(State()), op, input) ==>
        State() == old(State())
      ensures Resumable(old(State()), op, input) ==> Resumable(State(), op, input)
      ensures IsPublic(State(), input.id) && !IsPublic(old(State()), input.id) ==> IsPublished(State(), op, input)
      ensures PublicIsDurable(old(State())) && TargetDurable(old(State()), input) ==> PublicIsDurable(State())
    {
      hide Found, Digests, DiskOk, PublicIsDurable, ValidInput, RecordOf, AllFiles;
      if !ValidInput(op, input) { return Rejected(InvalidInput); }
      ghost var start := State();
      var wasPublic := RecordExpected(op, input);
      if wasPublic.None? { return Rejected(Conflict); }
      RecordedIsOk(start, State(), op, input);
      if (input.instance, input.id) in targets {
        r := ConfirmExisting(op, input);
        return;
      }
      if wasPublic.value { return Rejected(Unavailable); }
      r := PublishNew(op, input, cut);
    }

    /** A target left by an earlier attempt is checked and recorded as it is. */
    method ConfirmExisting(op: string, input: Input) returns (r: Outcome)
      requires Valid() && (input.instance, input.id) in targets
      requires input.id in records && SameRecord(records[input.id], op, input)
      modifies `records, `budget
      ensures Valid() && OnlyConcerns(old(State()), State(), op, input)
      ensures r == Crashed || r == match Verify(old(State()), input.id)
        case Some(error) => Rejected(error)
        case None => if old(records)[input.id].placement == Retained then Rejected(Unavailable) else Done
      ensures old(budget) >= 2 ==> r != Crashed
      ensures SameRecord(records[input.id], op, input)
      ensures old(records)[input.id].placement == Retained || Verify(old(State()), input.id).Some? ==>
        records == old(records)
      ensures records[input.id].placement in {old(records)[input.id].placement, Public}
      ensures r == Done ==> IsPublished(State(), op, input)
      ensures records[input.id].placement == Public && old(records)[input.id].placement != Public ==>
        IsPublished(State(), op, input)
      ensures PublicIsDurable(old(State())) && targets[(input.instance, input.id)].durable ==> PublicIsDurable(State())
    {
      hide Found, Digests, DiskOk, PublicIsDurable, IsPublished, RecordOf, AllFiles, Verify;
      ghost var start := State();
      SameRecordNames(records[input.id], op, input);
      r := ConfirmTarget(input.id);
      MarkedIsOk(start, State(), op, input);
    }

    /** Somebody else rewrites a published directory, or removes it. */
    method ChangeOutside(key: Key, dir: Option<Dir>)
      requires Valid() && key in targets
      modifies `targets
      ensures Valid() && targets.Keys == (if dir.Some? then old(targets).Keys else old(targets).Keys - {key})
      ensures dir.Some? ==> targets == old(targets)[key := Published(dir.value, old(targets)[key].durable, true)]
      ensures dir.None? ==> targets == old(targets) - {key}
    {
      if dir.Some? {
        targets := targets[key := Published(dir.value, targets[key].durable, true)];
      } else {
        targets := targets - {key};
      }
    }

    /**
     * Repeats one publication through any number of crashes, each after any number of actions, until it
     * is done; the last attempt is given enough actions to finish.
     */
    method PublishThroughCrashes(op: string, input: Input, lives: seq<nat>, cuts: nat -> nat) returns (r: Outcome)
      requires Valid() && Resumable(State(), op, input)
      modifies this
      ensures Valid() && r == Done && IsPublished(State(), op, input)
    {
      hide DiskOk, Resumable, IsPublished, Verdict;
      for n := 0 to |lives|
        invariant Valid() && Resumable(State(), op, input)
      {
        budget := lives[n];
        ResumableSucceeds(State(), op, input);
        r := Publish(op, input, cuts(n));
        if r == Done { return; }
      }
      budget := Cost(staging, op, input);
      ResumableSucceeds(State(), op, input);
      r := Publish(op, input, 0);
    }

    /**
     * Records as public a directory that was left in place before the database said so. Nothing is assumed
     * of the directory, which may have been edited since; only one that matches its record is accepted.
     */
    method Reconcile(id: string) returns (r: Outcome)
      modifies `records, `budget
      ensures old(DiskOk(State())) ==> Valid()
      ensures r == Crashed || r == match Verify(old(State()), id)
        case Some(error) => Rejected(error)
        case None => if old(records)[id].placement == Retained then Rejected(Unavailable) else Done
      ensures old(budget) >= 2 ==> r != Crashed
      ensures r.Rejected? ==> records == old(records)
      ensures r == Done ==>
        IsPublic(State(), id) && (old(records)[id].instance, id) in targets
        && Found(targets[(old(records)[id].instance, id)].dir.files) == records[id].files
      ensures records == old(records) || OnlyPlacement(old(State()), State(), id)
      ensures PublicIsDurable(old(State())) && DurablyThere(old(State()), id) ==> PublicIsDurable(State())
    {
      hide WellRecorded, Found, ValidRelative, DiskOk;
      var error := Verify(Disk(owners, records, staging, targets), id);
      if error.Some? { return Rejected(error.value); }
      var alive := Tick();
      if !alive { return Crashed; }
      ghost var start := State();
      var marked := MarkPublished(id);
      MarkedOnly(start, State(), id);
      if !marked { return Rejected(Unavailable); }
      alive := Tick();
      r := if alive then Done else Crashed;
    }
  }

  lemma MarkedOnly(before: Disk, after: Disk, id: string)
    requires id in before.records && after == before.(records := after.records)
    requires after.records == before.records
      || after.records == before.records[id := before.records[id].(placement := Public)]
    ensures OnlyPlacement(before, after, id) && (DiskOk(before) ==> DiskOk(after))
    ensures PublicIsDurable(before) && DurablyThere(before, id) ==> PublicIsDurable(after)
  {
    hide DiskOk;
    assert after.records - {id} == before.records - {id};
    if DiskOk(before) { PlacementIsFree(before, after, id); }
    OtherRecords(before, after, id);
  }

  /** A first publication that is cut off between moving its directory into place and flushing the new name. */
  method PublishUntilMoved(op: string, input: Input) returns (store: ArtifactStore)
    requires ValidInput(op, input)
    ensures fresh(store) && store.Valid() && Resumable(store.State(), op, input)
    ensures (input.instance, input.id) in store.targets && !TargetDurable(store.State(), input)
  {
    hide ValidInput, Found, Digests, AllFiles, DiskOk;
    store := new ArtifactStore(map[op := input.instance], StageCost(map[], op, input));
    var recorded := store.RecordExpected(op, input);
    SameAsItself(op, input);
    ghost var start := store.State();
    var alive := store.PrepareStage(op, input, 0);
    StagingIsFree(start, store.State());
    ghost var staged, tree := store.State(), store.staging[op].files;
    store.budget := 2;
    alive := store.RenameStage(op, (input.instance, input.id));
    RenamedIsOk(staged, store.State(), op, input, tree);
  }

  /**
   * A publication that is cut off there and then repeated is reported as done; a power loss can still take
   * it away for good.
   */
  method PublishTwice(op: string, input: Input) returns (store: ArtifactStore, r: Outcome)
    requires ValidInput(op, input)
    ensures fresh(store) && store.Valid()
    ensures r == Done && IsPublished(store.State(), op, input) && !TargetDurable(store.State(), input)
    ensures exists after :: PowerLoss(store.State(), after) && DiskOk(after) && !Resumable(after, op, input)
  {
    hide ValidInput, AllFiles, DiskOk, IsPublished, Resumable, Verdict;
    store := PublishUntilMoved(op, input);
    ghost var crashed := store.State();
    ResumableSucceeds(crashed, op, input);
    store.budget := Cost(store.staging, op, input);
    r := store.Publish(op, input, 0);
    assert store.targets == crashed.targets;
    LostForGood(store.State(), op, input);
  }

  lemma SameAsItself(op: string, input: Input)
    ensures SameRecord(RecordOf(op, input), op, input) && RecordOf(op, input).placement == Staged
  {
  }

  /** A published directory whose name was not flushed can disappear, and is never built again. */
  lemma LostForGood(d: Disk, op: string, input: Input)
    requires DiskOk(d) && IsPublished(d, op, input) && !TargetDurable(d, input)
    ensures exists after :: PowerLoss(d, after) && DiskOk(after) && !Resumable(after, op, input)
  {
    hide DiskOk;
    var key := (input.instance, input.id);
    var after := d.(targets := d.targets - {key});
    assert LosesPower(d, after, {key});
    PowerLossKeepsDisk(d, after);
    assert PowerLoss(d, after) && !Resumable(after, op, input);
  }
}
