/** Sound-effect mutations and the journal rows they are written to and read back from. */
module SfxJournal {
  import opened Common
  import opened MediaPath
  import opened Recovery

  datatype SfxMutation =
    | CreateFolder(path: Path)
    | RenameFolder(source: Path, destination: Path)
    | DeleteFolder(path: Path, recursive: bool)
    | MoveFile(source: Path, destination: Path)
    | DeleteFile(path: Path)
    | PublishUpload(staged: Path, destination: Path, replaceExisting: bool)

  datatype RecoveryDomain = Library | Sfx | Modes | Authoring | Cleanup

  datatype JournalError =
    | InvalidJournalDomain
    | InvalidJournalOperation
    | InvalidJournalPlan
    | UnknownJournalOperation

  const MAX_OPERATION_LENGTH := 64

  predicate OperationCharacter(c: char) {
    'a' <= c <= 'z' || '0' <= c <= '9' || c == '_'
  }

  function ParseOperation(value: string): Result<string, JournalError> {
    if value == "" || |value| > MAX_OPERATION_LENGTH || (exists i :: 0 <= i < |value| && !OperationCharacter(value[i]))
    then Err(InvalidJournalOperation)
    else Ok(value)
  }

  function OperationName(m: SfxMutation): string {
    match m
    case CreateFolder(_) => "create_folder"
    case RenameFolder(_, _) => "rename_folder"
    case DeleteFolder(_, _) => "delete_folder"
    case MoveFile(_, _) => "move_file"
    case DeleteFile(_) => "delete_file"
    case PublishUpload(_, _, _) => "publish_upload"
  }

  function Plan(m: SfxMutation): Json {
    match m
    case CreateFolder(path) => Object(["path"], [Text(path)])
    case DeleteFile(path) => Object(["path"], [Text(path)])
    case DeleteFolder(path, recursive) => Object(["path", "recursive"], [Text(path), Bool(recursive)])
    case RenameFolder(source, destination) => Object(["destination", "source"], [Text(destination), Text(source)])
    case MoveFile(source, destination) => Object(["destination", "source"], [Text(destination), Text(source)])
    case PublishUpload(staged, destination, replace) =>
      Object(["destination", "replace_existing", "staged"], [Text(destination), Bool(replace), Text(staged)])
  }

  /** The member of that name, if the document is an object that has one. */
  function Member(v: Json, name: string): Option<Json> {
    if v.Object? && |v.keys| == |v.values| then Lookup(v.keys, v.values, name) else None
  }

  function Lookup(keys: seq<string>, values: seq<Json>, name: string): Option<Json>
    requires |keys| == |values|
  {
    if keys == [] then None
    else if keys[0] == name then Some(values[0])
    else Lookup(keys[1..], values[1..], name)
  }

  function ParsePath(plan: Json, name: string): Result<Path, JournalError> {
    var found := Member(plan, name);
    if found.None? || !found.value.Text? || Parse(found.value.text).Err? then Err(InvalidJournalPlan)
    else Ok(Parse(found.value.text).value)
  }

  function ParseFlag(plan: Json, name: string): Result<bool, JournalError> {
    var found := Member(plan, name);
    if found.None? || !found.value.Bool? then Err(InvalidJournalPlan) else Ok(found.value.flag)
  }

  function FromJournal(domain: RecoveryDomain, operation: string, plan: Json): Result<SfxMutation, JournalError> {
    if domain != Sfx then Err(InvalidJournalDomain)
    else if operation == "create_folder" then
      var path :- ParsePath(plan, "path");
      Ok(CreateFolder(path))
    else if operation == "rename_folder" then
      var source :- ParsePath(plan, "source");
      var destination :- ParsePath(plan, "destination");
      Ok(RenameFolder(source, destination))
    else if operation == "delete_folder" then
      var path :- ParsePath(plan, "path");
      var recursive :- ParseFlag(plan, "recursive");
      Ok(DeleteFolder(path, recursive))
    else if operation == "move_file" then
      var source :- ParsePath(plan, "source");
      var destination :- ParsePath(plan, "destination");
      Ok(MoveFile(source, destination))
    else if operation == "delete_file" then
      var path :- ParsePath(plan, "path");
      Ok(DeleteFile(path))
    else if operation == "publish_upload" then
      var staged :- ParsePath(plan, "staged");
      var destination :- ParsePath(plan, "destination");
      var replace :- ParseFlag(plan, "replace_existing");
      Ok(PublishUpload(staged, destination, replace))
    else Err(UnknownJournalOperation)
  }

  lemma LookupThree(a: string, b: string, c: string, x: Json, y: Json, z: Json)
    requires a != b && b != c && a != c
    ensures Lookup([a, b, c], [x, y, z], a) == Some(x)
    ensures Lookup([a, b, c], [x, y, z], b) == Some(y)
    ensures Lookup([a, b, c], [x, y, z], c) == Some(z)
  {
    LookupTwo(b, c, y, z);
    assert [a, b, c][1..] == [b, c] && [x, y, z][1..] == [y, z];
  }

  lemma LookupTwo(a: string, b: string, x: Json, y: Json)
    requires a != b
    ensures Lookup([a, b], [x, y], a) == Some(x)
    ensures Lookup([a, b], [x, y], b) == Some(y)
  {
    assert [a, b][1..] == [b] && [x, y][1..] == [y];
  }

  lemma FolderRoundTrip(m: SfxMutation)
    requires m.CreateFolder? || m.RenameFolder? || m.DeleteFolder?
    ensures FromJournal(Sfx, OperationName(m), Plan(m)) == Ok(m)
  {
    var name := OperationName(m);
    match m
    case CreateFolder(_) =>
    case RenameFolder(source, destination) =>
      LookupTwo("destination", "source", Text(destination), Text(source));
      assert name[0] == 'r';
    case DeleteFolder(path, recursive) =>
      LookupTwo("path", "recursive", Text(path), Bool(recursive));
      assert name[0] == 'd';
  }

  lemma FileRoundTrip(m: SfxMutation)
    requires m.MoveFile? || m.DeleteFile?
    ensures FromJournal(Sfx, OperationName(m), Plan(m)) == Ok(m)
  {
    if m.MoveFile? {
      LookupTwo("destination", "source", Text(m.destination), Text(m.source));
    }
    assert |OperationName(m)| == if m.MoveFile? then 9 else 11;
  }

  lemma UploadRoundTrip(m: SfxMutation)
    requires m.PublishUpload?
    ensures FromJournal(Sfx, OperationName(m), Plan(m)) == Ok(m)
  {
    LookupThree("destination", "replace_existing", "staged", Text(m.destination), Bool(m.replaceExisting),
        Text(m.staged));
    assert |OperationName(m)| == 14;
  }

  lemma FolderOperationParses(m: SfxMutation)
    requires m.CreateFolder? || m.RenameFolder? || m.DeleteFolder?
    ensures ParseOperation(OperationName(m)) == Ok(OperationName(m))
  {
    match m
    case CreateFolder(_) =>
    case RenameFolder(_, _) =>
    case DeleteFolder(_, _) =>
  }

  lemma FileOperationParses(m: SfxMutation)
    requires m.MoveFile? || m.DeleteFile? || m.PublishUpload?
    ensures ParseOperation(OperationName(m)) == Ok(OperationName(m))
  {
    match m
    case MoveFile(_, _) =>
    case DeleteFile(_) =>
    case PublishUpload(_, _, _) =>
  }

  lemma OperationParses(m: SfxMutation)
    ensures ParseOperation(OperationName(m)) == Ok(OperationName(m))
  {
    if m.CreateFolder? || m.RenameFolder? || m.DeleteFolder? {
      FolderOperationParses(m);
    } else {
      FileOperationParses(m);
    }
  }

  /** What a mutation writes to the journal is exactly what restart reads back. */
  lemma JournalRoundTrip(m: SfxMutation)
    ensures ParseOperation(OperationName(m)) == Ok(OperationName(m))
    ensures FromJournal(Sfx, OperationName(m), Plan(m)) == Ok(m)
  {
    OperationParses(m);
    if m.MoveFile? || m.DeleteFile? {
      FileRoundTrip(m);
    } else if m.PublishUpload? {
      UploadRoundTrip(m);
    } else {
      FolderRoundTrip(m);
    }
  }

  /** No plan is ever refused for its shape. */
  lemma PlanHasGoodShape(m: SfxMutation)
    ensures NodeCount(Plan(m)) <= 4 && FitsDepth(Plan(m), 1)
  {
    var plan := Plan(m);
    var vs := Children(plan);
    forall i | 0 <= i < |vs| ensures NodeCount(vs[i]) == 1 && FitsDepth(vs[i], 0) {
      LeafShape(vs[i]);
    }
    LeavesCount(vs, plan);
  }

  lemma LeafShape(v: Json)
    requires Children(v) == []
    ensures NodeCount(v) == 1 && FitsDepth(v, 0)
  {
    assert NodeCounts([], v) == 0;
  }

  lemma {:induction false} LeavesCount(vs: seq<Json>, above: Json)
    requires forall i :: 0 <= i < |vs| ==> vs[i] < above && NodeCount(vs[i]) == 1
    ensures NodeCounts(vs, above) == |vs|
    decreases |vs|
  {
    if vs != [] {
      LeavesCount(vs[..|vs| - 1], above);
    }
  }
}
