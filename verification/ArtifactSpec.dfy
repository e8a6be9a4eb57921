/** Artifacts on disk and in the database, and what publishing one should come to. */
module ArtifactSpec {
  import opened Wrappers

  const FILE_LIMIT := 2 * 1024 * 1024

  /** A collision-free digest. */
  datatype Digest = Digest(of: Bytes)

  /** A file as programs see it; what is not flushed may be lost with the power. */
  datatype File = File(bytes: Bytes, flushed: bool)

  type Tree = map<string, File>

  /** A directory; synced when its entries are flushed too. */
  datatype Dir = Dir(files: Tree, synced: bool)

  /** A published directory; durable when its name is flushed too, edited once anything else wrote into it. */
  datatype Published = Published(dir: Dir, durable: bool, edited: bool)

  datatype Placement = Staged | Public | Retained

  datatype Record = Record(
    instance: string, revision: nat, generator: string, manifest: Digest, operation: string,
    files: map<string, Digest>, placement: Placement)

  /** The manifest text is a function of the other fields; it is given with them. */
  datatype Input = Input(
    id: string, instance: string, revision: nat, generator: string, files: map<string, Bytes>, manifest: Bytes)

  datatype ArtifactError = InvalidInput | Conflict | Unavailable | Modified

  datatype Outcome = Done | Crashed | Rejected(error: ArtifactError)

  type Key = (string, string)

  datatype Disk = Disk(
    owners: map<string, string>,
    records: map<string, Record>,
    staging: map<string, Dir>,
    targets: map<Key, Published>)

  // Input -------------------------------------------------------------------------------------

  predicate ValidIdChar(c: char) {
    IsDigit(c) || 'a' <= c <= 'z' || 'A' <= c <= 'Z' || c == '-' || c == '_'
  }

  predicate ValidId(id: string) {
    0 < |id| <= 128 && forall i | 0 <= i < |id| :: ValidIdChar(id[i])
  }

  /** The parts of a path between slashes. */
  function Parts(path: string): seq<string> {
    if path == [] then [[]]
    else
      var rest := Parts(path[1..]);
      if path[0] == '/' then [[]] + rest
      else if rest == [] then [[path[0]]]
      else [[path[0]] + rest[0]] + rest[1..]
  }

  predicate ValidPart(part: string) {
    part != [] && part != "." && part != ".." && part[|part| - 1] != '.' && part[|part| - 1] != ' '
  }

  predicate ValidRelative(path: string) {
    && path != [] && path != "manifest.json" && '\\' !in path && ':' !in path
    && forall i | 0 <= i < |Parts(path)| :: ValidPart(Parts(path)[i])
  }

  predicate ValidInput(op: string, input: Input) {
    && ValidId(op) && ValidId(input.id) && ValidId(input.instance)
    && input.revision > 0 && input.generator != "" && "compose.yaml" in input.files && "manifest.json" !in input.files
    && (forall path | path in input.files :: ValidRelative(path) && |input.files[path]| <= FILE_LIMIT)
    && |input.manifest| <= FILE_LIMIT
  }

  function AllFiles(input: Input): map<string, Bytes> { input.files["manifest.json" := input.manifest] }

  function Digests(files: map<string, Bytes>): map<string, Digest> {
    map path | path in files :: Digest(files[path])
  }

  function Found(files: Tree): map<string, Digest> { map path | path in files :: Digest(files[path].bytes) }

  function RecordOf(op: string, input: Input): Record {
    Record(input.instance, input.revision, input.generator, Digest(input.manifest), op, Digests(AllFiles(input)), Staged)
  }

  predicate SameRecord(record: Record, op: string, input: Input) {
    record.(placement := Staged) == RecordOf(op, input)
  }

  // Verification --------------------------------------------------------------------------------

  /** The full check of a published directory against its record. */
  function Verify(d: Disk, id: string): Option<ArtifactError> {
    if !ValidId(id) then Some(InvalidInput)
    else if id !in d.records then Some(Unavailable)
    else
      var record := d.records[id];
      var key := (record.instance, id);
      if !ValidId(record.instance) then Some(InvalidInput)
      else if record.files == map[] || "compose.yaml" !in record.files
        || !("manifest.json" in record.files && record.files["manifest.json"] == record.manifest)
        || (exists path :: path in record.files && path != "manifest.json" && !ValidRelative(path))
      then Some(Modified)
      else if key !in d.targets || "compose.yaml" !in d.targets[key].dir.files then Some(Unavailable)
      else if Found(d.targets[key].dir.files) != record.files then Some(Modified)
      else None
  }

  // The state between any two actions ---------------------------------------------------------------

  predicate WellRecorded(record: Record, id: string) {
    && ValidId(id) && ValidId(record.instance) && "compose.yaml" in record.files
    && "manifest.json" in record.files && record.files["manifest.json"] == record.manifest
    && forall path | path in record.files && path != "manifest.json" :: ValidRelative(path)
  }

  predicate Flushed(dir: Dir) { dir.synced && forall path | path in dir.files :: dir.files[path].flushed }

  /** A target nobody edited is exactly what its record says, and already safe against a power loss. */
  ghost predicate DiskOk(d: Disk) {
    && (forall id | id in d.records :: WellRecorded(d.records[id], id))
    && (forall key | key in d.targets ::
          && key.1 in d.records && d.records[key.1].instance == key.0
          && (!d.targets[key].edited ==>
                Found(d.targets[key].dir.files) == d.records[key.1].files && Flushed(d.targets[key].dir)))
  }

  /** What is recorded as public is there to stay. */
  ghost predicate PublicIsDurable(d: Disk) {
    forall id | id in d.records && d.records[id].placement == Public ::
      (d.records[id].instance, id) in d.targets && d.targets[(d.records[id].instance, id)].durable
  }

  /** What an uninterrupted publication comes to. */
  ghost function Verdict(d: Disk, op: string, input: Input): Outcome
    requires DiskOk(d)
  {
    var key := (input.instance, input.id);
    if !ValidInput(op, input) then Rejected(InvalidInput)
    else if op !in d.owners || d.owners[op] != input.instance then Rejected(Conflict)
    else if input.id in d.records && !SameRecord(d.records[input.id], op, input) then Rejected(Conflict)
    else if key in d.targets then (
      match Verify(d, input.id)
      case Some(error) => Rejected(error)
      case None => if d.records[input.id].placement == Retained then Rejected(Unavailable) else Done
    )
    else if input.id in d.records && d.records[input.id].placement == Public then Rejected(Unavailable)
    else if op in d.staging && !(d.staging[op].files.Keys <= AllFiles(input).Keys) then Rejected(Conflict)
    else if input.id in d.records && d.records[input.id].placement == Retained then Rejected(Unavailable)
    else Done
  }

  /** Nothing but this artifact's record, a new target and this operation's staging directory differs. */
  predicate OnlyConcerns(before: Disk, after: Disk, op: string, input: Input) {
    && after.owners == before.owners
    && after.records - {input.id} == before.records - {input.id}
    && after.targets - {(input.instance, input.id)} == before.targets - {(input.instance, input.id)}
    && after.staging - {op} == before.staging - {op}
    && (input.id in before.records ==> input.id in after.records)
    && ((input.instance, input.id) in before.targets ==> after.targets == before.targets)
  }

  /** The artifact is recorded as public and its directory holds exactly the given bytes. */
  ghost predicate IsPublished(d: Disk, op: string, input: Input) {
    && input.id in d.records && d.records[input.id] == RecordOf(op, input).(placement := Public)
    && (input.instance, input.id) in d.targets
    && (forall path :: path in d.targets[(input.instance, input.id)].dir.files <==> path in AllFiles(input))
    && forall path | path in AllFiles(input) ::
         d.targets[(input.instance, input.id)].dir.files[path].bytes == AllFiles(input)[path]
  }

  predicate IsPublic(d: Disk, id: string) { id in d.records && d.records[id].placement == Public }

  /** A target that is already there has its name flushed. */
  predicate TargetDurable(d: Disk, input: Input) {
    (input.instance, input.id) in d.targets ==> d.targets[(input.instance, input.id)].durable
  }

  /** The recorded target is there and its name is flushed. */
  predicate DurablyThere(d: Disk, id: string) {
    id in d.records && (d.records[id].instance, id) in d.targets && d.targets[(d.records[id].instance, id)].durable
  }

  /** The refusals that come only after the expected files were recorded or the target was rebuilt. */
  predicate Unfinished(d: Disk, op: string, input: Input) {
    && ValidInput(op, input) && op in d.owners && d.owners[op] == input.instance
    && (input.id in d.records ==> SameRecord(d.records[input.id], op, input) && d.records[input.id].placement != Public)
    && (input.instance, input.id) !in d.targets
  }

  // Crashes -------------------------------------------------------------------------------------

  /** Repeating this publication can still succeed: nothing foreign is in its way. */
  predicate Resumable(d: Disk, op: string, input: Input) {
    var key := (input.instance, input.id);
    && ValidInput(op, input) && op in d.owners && d.owners[op] == input.instance
    && (input.id in d.records ==> SameRecord(d.records[input.id], op, input) && d.records[input.id].placement != Retained)
    && (input.id in d.records && d.records[input.id].placement == Public ==> key in d.targets)
    && (op in d.staging ==> d.staging[op].files.Keys <= AllFiles(input).Keys)
    && (key in d.targets ==> !d.targets[key].edited)
  }

  /** A lost rename may bring the staging directory back. */
  predicate Returns(d: Disk, lost: set<Key>, op: string, dir: Dir) {
    exists key :: key in lost && key in d.targets && key.1 in d.records && d.records[key.1].operation == op
      && dir.files.Keys <= d.targets[key].dir.files.Keys
  }

  /** What others wrote may be lost in part. */
  predicate BothEdited(d: Disk, after: Disk, key: Key)
    requires key in d.targets && key in after.targets
  {
    d.targets[key].edited && after.targets[key].edited && d.targets[key].durable == after.targets[key].durable
  }

  /** Power fails: unsynced names may disappear, staged files may be missing or hold anything. */
  predicate LosesPower(d: Disk, after: Disk, lost: set<Key>) {
    && after.owners == d.owners && after.records == d.records
    && (forall key | key in lost :: key in d.targets && !d.targets[key].durable)
    && after.targets.Keys == d.targets.Keys - lost
    && (forall key | key in after.targets :: after.targets[key] == d.targets[key] || BothEdited(d, after, key))
    && forall o | o in after.staging ::
         (o in d.staging && after.staging[o].files.Keys <= d.staging[o].files.Keys) || Returns(d, lost, o, after.staging[o])
  }

  ghost predicate PowerLoss(d: Disk, after: Disk) { exists lost :: LosesPower(d, after, lost) }

  lemma NewRecordIsWell(op: string, input: Input)
    requires ValidInput(op, input)
    ensures WellRecorded(RecordOf(op, input), input.id)
  {
  }

  lemma VerifiedAsRecorded(d: Disk, id: string)
    requires DiskOk(d) && id in d.records && (d.records[id].instance, id) in d.targets
    requires !d.targets[(d.records[id].instance, id)].edited
    ensures Verify(d, id).None?
  {
    hide ValidRelative, ValidId;
    var record := d.records[id];
    assert WellRecorded(record, id);
    var tree := d.targets[(record.instance, id)].dir.files;
    assert Found(tree) == record.files && Found(tree).Keys == tree.Keys;
  }

  lemma ResumableSucceeds(d: Disk, op: string, input: Input)
    requires DiskOk(d) && Resumable(d, op, input)
    ensures Verdict(d, op, input) == Done
  {
    hide ValidInput, AllFiles, Verify;
    if (input.instance, input.id) in d.targets { VerifiedAsRecorded(d, input.id); }
  }

  lemma PowerLossKeepsDisk(d: Disk, after: Disk)
    requires DiskOk(d) && PowerLoss(d, after)
    ensures DiskOk(after) && (PublicIsDurable(d) ==> PublicIsDurable(after))
  {
  }

  /** Whatever this operation has published, for whichever revision, holds no file this input does not have. */
  predicate SameFileNames(d: Disk, op: string, input: Input) {
    forall key | key in d.targets && key.1 in d.records && d.records[key.1].operation == op ::
      d.targets[key].dir.files.Keys <= AllFiles(input).Keys
  }

  lemma ReturnedIsExpected(d: Disk, after: Disk, lost: set<Key>, op: string, input: Input)
    requires Resumable(d, op, input) && LosesPower(d, after, lost) && op in after.staging && SameFileNames(d, op, input)
    ensures after.staging[op].files.Keys <= AllFiles(input).Keys
  {
    hide ValidInput;
    if !(op in d.staging && after.staging[op].files.Keys <= d.staging[op].files.Keys) {
      var key :| key in lost && key in d.targets && key.1 in d.records && d.records[key.1].operation == op
        && after.staging[op].files.Keys <= d.targets[key].dir.files.Keys;
    }
  }

  /** Exactly when a power loss can leave a publication that no repetition completes. */
  lemma PowerLossIsSafeIffDurable(d: Disk, op: string, input: Input)
    requires DiskOk(d) && Resumable(d, op, input) && SameFileNames(d, op, input)
    ensures (forall after | PowerLoss(d, after) :: Resumable(after, op, input)) <==>
      (input.id in d.records && d.records[input.id].placement == Public ==>
         d.targets[(input.instance, input.id)].durable)
  {
    hide ValidInput, AllFiles, SameFileNames;
    var key := (input.instance, input.id);
    if input.id in d.records && d.records[input.id].placement == Public && !d.targets[key].durable {
      var after := d.(targets := d.targets - {key});
      assert LosesPower(d, after, {key});
      assert PowerLoss(d, after) && !Resumable(after, op, input);
    } else {
      forall after | PowerLoss(d, after) ensures Resumable(after, op, input) {
        var lost :| LosesPower(d, after, lost);
        if op in after.staging { ReturnedIsExpected(d, after, lost, op, input); }
      }
    }
  }

  // What the checks mean --------------------------------------------------------------------------------

  /** For a sound record, missing is what is not there or has no Compose file, and modified is anything else that differs. */
  lemma VerifyTellsApart(d: Disk, id: string)
    requires DiskOk(d) && id in d.records
    ensures var key := (d.records[id].instance, id);
      var there := key in d.targets && "compose.yaml" in d.targets[key].dir.files;
      && (Verify(d, id) == Some(Unavailable) <==> !there)
      && (Verify(d, id) == Some(Modified) <==> there && Found(d.targets[key].dir.files) != d.records[id].files)
      && (Verify(d, id) == None <==> there && Found(d.targets[key].dir.files) == d.records[id].files)
  {
    hide ValidRelative, ValidId, Found;
    assert WellRecorded(d.records[id], id);
  }

  /** Exactly when an uninterrupted publication is done. */
  lemma DoneIff(d: Disk, op: string, input: Input)
    requires DiskOk(d)
    ensures var key := (input.instance, input.id);
      Verdict(d, op, input) == Done <==>
        && ValidInput(op, input) && op in d.owners && d.owners[op] == input.instance
        && (input.id in d.records ==>
              SameRecord(d.records[input.id], op, input) && d.records[input.id].placement != Retained)
        && (if key in d.targets then Found(d.targets[key].dir.files) == Digests(AllFiles(input))
            else
              && (input.id in d.records ==> d.records[input.id].placement == Staged)
              && (op in d.staging ==> d.staging[op].files.Keys <= AllFiles(input).Keys))
  {
    hide ValidInput, ValidRelative, ValidId, Found, Digests, AllFiles, Verify;
    var key := (input.instance, input.id);
    if key in d.targets && SameRecord(d.records[input.id], op, input) {
      VerifyTellsApart(d, input.id);
      ComposeIsThere(d, key);
    }
  }

  lemma ComposeIsThere(d: Disk, key: Key)
    requires DiskOk(d) && key in d.targets
    ensures Found(d.targets[key].dir.files) == d.records[key.1].files ==> "compose.yaml" in d.targets[key].dir.files
  {
    hide ValidRelative, ValidId;
    assert WellRecorded(d.records[key.1], key.1);
    assert Found(d.targets[key].dir.files).Keys == d.targets[key].dir.files.Keys;
  }

  function Join(parts: seq<string>): string {
    if parts == [] then []
    else if |parts| == 1 then parts[0]
    else parts[0] + "/" + Join(parts[1..])
  }

  /** The parts of a path are what is left when it is cut at every slash. */
  lemma {:induction false} PartsJoin(path: string)
    ensures Parts(path) != [] && Join(Parts(path)) == path
    ensures forall i | 0 <= i < |Parts(path)| :: '/' !in Parts(path)[i]
  {
    if path != [] {
      var rest := Parts(path[1..]);
      PartsJoin(path[1..]);
      if path[0] == '/' {
        assert ([[]] + rest)[1..] == rest;
        assert path == "/" + path[1..];
      } else {
        var parts := [[path[0]] + rest[0]] + rest[1..];
        assert parts[1..] == rest[1..] && path == [path[0]] + path[1..];
      }
    }
  }

  /** How deep below a directory one gets by following these parts; None once it is left. */
  function Depth(parts: seq<string>): Option<nat> {
    if parts == [] then Some(0)
    else
      match Depth(parts[..|parts| - 1])
      case None => None
      case Some(deep) =>
        var last := parts[|parts| - 1];
        if last == ".." then (if deep == 0 then None else Some(deep - 1))
        else if last == "." || last == "" then Some(deep) else Some(deep + 1)
  }

  /** An accepted path stays below the directory of the artifact, one level for each of its parts. */
  lemma AcceptedPathsStayBelow(path: string)
    requires ValidRelative(path)
    ensures path != "manifest.json" && '\\' !in path && ':' !in path && Join(Parts(path)) == path
    ensures Depth(Parts(path)) == Some(|Parts(path)|) && |Parts(path)| > 0
  {
    PartsJoin(path);
    EveryPartDeeper(Parts(path));
  }

  lemma {:induction false} EveryPartDeeper(parts: seq<string>)
    requires forall i | 0 <= i < |parts| :: ValidPart(parts[i])
    ensures Depth(parts) == Some(|parts|)
  {
    if parts != [] { EveryPartDeeper(parts[..|parts| - 1]); }
  }

  // Where a promise fails -----------------------------------------------------------------------------

  lemma {:induction false} OnePart(path: string)
    requires path != [] && '/' !in path
    ensures Parts(path) == [path]
  {
    var rest := path[1..];
    assert path == [path[0]] + rest;
    if rest == [] {
      assert Parts(rest) == [[]];
    } else {
      OnePart(rest);
    }
    assert Parts(path) == [[path[0]] + Parts(rest)[0]] + Parts(rest)[1..];
  }

  const SMALL := Input("a", "i", 1, "g", map["compose.yaml" := []], [])

  lemma ComposeIsRelative()
    ensures ValidRelative("compose.yaml")
  {
    hide Parts;
    OnePart("compose.yaml");
  }

  lemma SmallIsValid()
    ensures ValidInput("op", SMALL)
  {
    hide ValidRelative, Parts, ValidIdChar;
    ComposeIsRelative();
    ShortIds();
    assert SMALL.files.Keys == {"compose.yaml"};
  }

  lemma ShortIds()
    ensures ValidId("op") && ValidId("a") && ValidId("i")
  {
  }

  /** Its directory is in place and recorded, but its name was never flushed. */
  function Unflushed(): Disk {
    Disk(map["op" := "i"], map["a" := RecordOf("op", SMALL).(placement := Public)], map[],
         map[("i", "a") := Published(Dir(map["compose.yaml" := File([], true), "manifest.json" := File([], true)], true), false, false)])
  }

  /** A sound disk with a published artifact that a power loss can take away for good. */
  lemma PublishedCanBeLost()
    ensures DiskOk(Unflushed()) && Resumable(Unflushed(), "op", SMALL) && IsPublic(Unflushed(), "a")
    ensures exists after :: PowerLoss(Unflushed(), after) && !Resumable(after, "op", SMALL)
  {
    hide ValidInput, ValidRelative, ValidId;
    var d := Unflushed();
    SmallIsValid();
    UnflushedIsOk();
    PowerLossIsSafeIffDurable(d, "op", SMALL);
  }

  lemma UnflushedIsOk()
    ensures DiskOk(Unflushed())
  {
    hide ValidInput, ValidRelative, ValidId, Parts;
    var d := Unflushed();
    SmallIsValid();
    NewRecordIsWell("op", SMALL);
    var tree := d.targets[("i", "a")].dir.files;
    assert Found(tree) == d.records["a"].files;
    assert d.records.Keys == {"a"} && d.targets.Keys == {("i", "a")};
  }
}
