/** The SDK helpers of the front-end: the rows it writes, the storage path of an
    uploaded file, and the upload, create-with-files and delete-file sequences.
    Every SDK call is a reply passed in as a parameter; every request issued,
    progress report made and error logged is recorded, in order, in a trace. */
module Supabase {
  import opened Common
  import opened FileManager

  /** The cover image every created project gets. */
  const ProjectImageUrl: string :=
    "https://images.unsplash.com/photo-1586023492125-27b2c045efd7?q=80&w=2158&auto=format&fit=crop"

  /** The columns of a `projects` row the front-end writes or shows. */
  datatype Project = Project(
    id: string, name: string, description: string, creatorId: string,
    sourceEmail: string, sourceDomain: Option<string>, imageUrl: string)

  /** What a caller hands over to create a project with its staged files;
      `sourceDomain` is absent when it was derived from an email without an `@`. */
  datatype ProjectDraft = ProjectDraft(
    name: string, description: string, files: seq<Staged>,
    creatorId: string, sourceEmail: string, sourceDomain: Option<string>)

  /** The `projects` insert payload. */
  datatype NewProject = NewProject(
    name: string, description: string, creatorId: string,
    sourceEmail: string, sourceDomain: Option<string>, imageUrl: string)

  /** A signed-in account, as far as the front-end reads it. */
  datatype User = User(id: string, email: string)

  /** A `profiles` row, as far as the front-end reads it; nullable columns are options. */
  datatype Profile = Profile(
    id: string, email: string, fullName: Option<string>, phone: Option<string>,
    companyId: Option<string>, companyName: Option<string>)

  /** JavaScript truthiness of a nullable text column: present and not empty. */
  predicate Truthy(s: Option<string>)
  {
    s.Some? && s.value != ""
  }

  /** The `files` insert payload; `creatorId` is absent when no user is signed in. */
  datatype FileRow = FileRow(
    projectId: string, creatorId: Option<string>, name: string, size: nat,
    mime: string, path: string, url: string)

  /** An observable step: a request to the backend, a progress report, or a console error. */
  datatype Call =
    | InsertProject(project: NewProject)
    | UploadObject(path: string, file: nat)
    | ReportProgress(fileName: string)
    | GetUser
    | InsertFileRow(row: FileRow)
    | LogUploadError(fileName: string)
    | ListFilePaths(projectId: string)
    | RemoveObject(path: string)
    | DeleteFileRows(path: string)
    | DeleteProjectRow(projectId: string)

  function NewRow(draft: ProjectDraft): NewProject
  {
    NewProject(draft.name, draft.description, draft.creatorId,
      draft.sourceEmail, draft.sourceDomain, ProjectImageUrl)
  }

  // ---------------------------------------------------------------------------
  // Storage paths

  /** `name.split('.').pop()`. */
  function FileExtension(name: string): string
  {
    var fields := Split(name, '.');
    fields[|fields| - 1]
  }

  /** The extension is the text after the last dot, or the whole name without a dot. */
  lemma FileExtensionAfterLastDot(name: string)
    ensures var ext := FileExtension(name);
      && '.' !in ext && |ext| <= |name| && ext == name[|name| - |ext|..]
      && ('.' in name ==> |ext| < |name| && name[|name| - |ext| - 1] == '.')
      && ('.' !in name ==> ext == name)
  {
    LastFieldIsSuffix(name, '.');
  }

  /** The generated object name: a random token, the clock reading and the extension. */
  function StorageName(name: string, token: string, now: nat): string
  {
    token + "_" + NatToString(now) + "." + FileExtension(name)
  }

  function StoragePath(projectId: string, folderPath: seq<string>, storageName: string): string
  {
    projectId + "/" + Join(folderPath, "/") + "/" + storageName
  }

  /** When no piece holds a slash and the folder path is not empty, the storage path
      splits back into the project id, the folder names and the object name. */
  lemma StoragePathFields(projectId: string, folderPath: seq<string>, storageName: string)
    requires |folderPath| >= 1
    requires '/' !in projectId && '/' !in storageName
    requires forall i :: 0 <= i < |folderPath| ==> '/' !in folderPath[i]
    ensures Split(StoragePath(projectId, folderPath, storageName), '/')
      == [projectId] + folderPath + [storageName]
  {
    var front := [projectId] + folderPath;
    assert front[1..] == folderPath;
    assert Join(front, "/") == projectId + "/" + Join(folderPath, "/");
    JoinSnoc(front, "/", storageName);
    SplitJoin(front + [storageName], '/');
  }

  /** An empty folder path leaves an empty segment between two slashes. */
  lemma EmptyFolderPathDoubleSlash(projectId: string, storageName: string)
    ensures StoragePath(projectId, [], storageName) == projectId + "//" + storageName
  {
  }

  // ---------------------------------------------------------------------------
  // uploadProjectFile

  /** The SDK's answers for one upload: the random token and clock reading that name
      the object, how many progress events the upload raised, its error, the public
      URL, the signed-in user, and the metadata insert's error. */
  datatype UploadReply = UploadReply(
    token: string, now: nat, progressEvents: nat, uploadError: Option<Failure>,
    publicUrl: string, userId: Option<string>, dbError: Option<Failure>)

  datatype Uploaded = Uploaded(path: string, url: string)

  function UploadPath(file: FileHandle, projectId: string, folderPath: seq<string>, reply: UploadReply): string
  {
    StoragePath(projectId, folderPath, StorageName(file.name, reply.token, reply.now))
  }

  /** One report per progress event when a callback was supplied, none otherwise. */
  function ProgressReports(fileName: string, withProgress: bool, events: nat): (r: seq<Call>)
    ensures withProgress ==> |r| == events
    ensures forall i :: 0 <= i < |r| ==> r[i] == ReportProgress(fileName)
    ensures !withProgress ==> r == []
  {
    if withProgress then seq(events, _ => ReportProgress(fileName)) else []
  }

  /** The steps uploadProjectFile takes for one file. */
  function UploadTrace(file: FileHandle, projectId: string, folderPath: seq<string>,
                       withProgress: bool, reply: UploadReply): seq<Call>
  {
    var path := UploadPath(file, projectId, folderPath, reply);
    [UploadObject(path, file.handle)]
    + ProgressReports(file.name, withProgress, reply.progressEvents)
    + (if reply.uploadError.Some? then [LogUploadError(file.name)]
       else ([GetUser, InsertFileRow(FileRow(projectId, reply.userId, file.name, file.size, file.mime, path, reply.publicUrl))]
         + (if reply.dbError.Some? then [LogUploadError(file.name)] else [])))
  }

  /** How uploadProjectFile settles: the first error rethrown, or the path and URL. */
  function UploadResult(file: FileHandle, projectId: string, folderPath: seq<string>, reply: UploadReply): Result<Uploaded>
  {
    if reply.uploadError.Some? then Err(reply.uploadError.value)
    else if reply.dbError.Some? then Err(reply.dbError.value)
    else Ok(Uploaded(UploadPath(file, projectId, folderPath, reply), reply.publicUrl))
  }

  predicate IsUploadObject(c: Call) { c.UploadObject? }
  predicate IsFileRowInsert(c: Call) { c.InsertFileRow? }
  predicate IsUploadErrorLog(c: Call) { c.LogUploadError? }

  /** The upload request comes first; a metadata row is written only after the upload
      succeeded and then carries the storage path, the public URL and the file's own
      name, size and type; the error is logged exactly when the call rejects. */
  lemma UploadTraceOrder(file: FileHandle, projectId: string, folderPath: seq<string>,
                         withProgress: bool, reply: UploadReply)
    ensures var t := UploadTrace(file, projectId, folderPath, withProgress, reply);
      var path := UploadPath(file, projectId, folderPath, reply);
      && t[0] == UploadObject(path, file.handle)
      && (forall i :: 1 <= i < |t| ==> !t[i].UploadObject?)
      && (reply.uploadError.Some? ==> forall i :: 0 <= i < |t| ==> !t[i].InsertFileRow?)
      && (forall i :: 0 <= i < |t| && t[i].InsertFileRow? ==>
            && reply.uploadError.None?
            && t[i].row == FileRow(projectId, reply.userId, file.name, file.size, file.mime, path, reply.publicUrl))
      && (LogUploadError(file.name) in t <==> UploadResult(file, projectId, folderPath, reply).Err?)
  {
  }

  /** uploadProjectFile. `withProgress` says whether a progress callback was given. */
  method UploadProjectFile(file: FileHandle, projectId: string, folderPath: seq<string>,
                           withProgress: bool, reply: UploadReply)
    returns (result: Result<Uploaded>, calls: seq<Call>)
    ensures calls == UploadTrace(file, projectId, folderPath, withProgress, reply)
    ensures result == UploadResult(file, projectId, folderPath, reply)
    ensures result.Ok? ==> result.value.path == UploadPath(file, projectId, folderPath, reply)
  {
    var filePath := StoragePath(projectId, folderPath, StorageName(file.name, reply.token, reply.now));
    calls := [UploadObject(filePath, file.handle)] + ProgressReports(file.name, withProgress, reply.progressEvents);
    if reply.uploadError.Some? {
      calls := calls + [LogUploadError(file.name)];
      return Err(reply.uploadError.value), calls;
    }
    calls := calls + [GetUser];
    calls := calls + [InsertFileRow(FileRow(projectId, reply.userId, file.name, file.size, file.mime, filePath, reply.publicUrl))];
    if reply.dbError.Some? {
      calls := calls + [LogUploadError(file.name)];
      return Err(reply.dbError.value), calls;
    }
    result := Ok(Uploaded(filePath, reply.publicUrl));
  }

  // ---------------------------------------------------------------------------
  // createProjectWithFiles

  /** One iteration of the loop of createProjectWithFiles: the upload, and a second
      log line from the loop's own catch when it rejects. */
  function FileSteps(projectId: string, entry: Staged, withProgress: bool, reply: UploadReply): seq<Call>
  {
    UploadTrace(entry.file, projectId, entry.path, withProgress, reply)
    + (if UploadResult(entry.file, projectId, entry.path, reply).Err? then [LogUploadError(entry.file.name)] else [])
  }

  function WithFilesTrace(projectId: string, files: seq<Staged>, withProgress: bool, replies: seq<UploadReply>): seq<Call>
    requires |replies| == |files|
    decreases |files|
  {
    if files == [] then []
    else
      var n := |files| - 1;
      WithFilesTrace(projectId, files[..n], withProgress, replies[..n])
      + FileSteps(projectId, files[n], withProgress, replies[n])
  }

  lemma WithFilesTraceStep(projectId: string, files: seq<Staged>, withProgress: bool,
                           replies: seq<UploadReply>, k: nat)
    requires |replies| == |files| && k < |files|
    ensures WithFilesTrace(projectId, files[..k + 1], withProgress, replies[..k + 1])
      == WithFilesTrace(projectId, files[..k], withProgress, replies[..k])
         + FileSteps(projectId, files[k], withProgress, replies[k])
  {
    assert files[..k + 1][..k] == files[..k];
    assert replies[..k + 1][..k] == replies[..k];
  }

  /** One iteration sends exactly one upload request. */
  lemma FileStepsUploadOnce(projectId: string, entry: Staged, withProgress: bool, reply: UploadReply)
    ensures Filter(FileSteps(projectId, entry, withProgress, reply), IsUploadObject)
      == [UploadObject(UploadPath(entry.file, projectId, entry.path, reply), entry.file.handle)]
  {
    var t := UploadTrace(entry.file, projectId, entry.path, withProgress, reply);
    var extra: seq<Call> :=
      if UploadResult(entry.file, projectId, entry.path, reply).Err? then [LogUploadError(entry.file.name)] else [];
    UploadTraceOrder(entry.file, projectId, entry.path, withProgress, reply);
    assert t == [t[0]] + t[1..];
    FilterConcat(t, extra, IsUploadObject);
    FilterConcat([t[0]], t[1..], IsUploadObject);
    FilterDropsAll(t[1..], IsUploadObject);
    FilterDropsAll(extra, IsUploadObject);
  }

  /** Every staged file is sent to storage exactly once, in staging order, whatever
      became of the files before it. */
  lemma {:induction false} EveryFileUploadedInOrder(projectId: string, files: seq<Staged>,
                                                    withProgress: bool, replies: seq<UploadReply>)
    requires |replies| == |files|
    ensures Filter(WithFilesTrace(projectId, files, withProgress, replies), IsUploadObject)
      == seq(|files|, i requires 0 <= i < |files| =>
           UploadObject(UploadPath(files[i].file, projectId, files[i].path, replies[i]), files[i].file.handle))
    decreases |files|
  {
    if files != [] {
      var n := |files| - 1;
      EveryFileUploadedInOrder(projectId, files[..n], withProgress, replies[..n]);
      FilterConcat(WithFilesTrace(projectId, files[..n], withProgress, replies[..n]),
        FileSteps(projectId, files[n], withProgress, replies[n]), IsUploadObject);
      FileStepsUploadOnce(projectId, files[n], withProgress, replies[n]);
    }
  }

  /** A file whose upload rejects is logged twice: once inside uploadProjectFile and
      once by the loop that called it. */
  lemma FailedUploadLoggedTwice(projectId: string, entry: Staged, withProgress: bool, reply: UploadReply)
    requires reply.uploadError.Some?
    ensures Filter(WithFilesTrace(projectId, [entry], withProgress, [reply]), IsUploadErrorLog)
      == [LogUploadError(entry.file.name), LogUploadError(entry.file.name)]
  {
    var t := UploadTrace(entry.file, projectId, entry.path, withProgress, reply);
    var reports := ProgressReports(entry.file.name, withProgress, reply.progressEvents);
    var up := UploadPath(entry.file, projectId, entry.path, reply);
    assert [entry][..0] == [] && [reply][..0] == [];
    assert WithFilesTrace(projectId, [entry], withProgress, [reply]) == FileSteps(projectId, entry, withProgress, reply);
    assert FileSteps(projectId, entry, withProgress, reply) == t + [LogUploadError(entry.file.name)];
    assert t == [UploadObject(up, entry.file.handle)] + reports + [LogUploadError(entry.file.name)];
    FilterConcat(t, [LogUploadError(entry.file.name)], IsUploadErrorLog);
    FilterConcat([UploadObject(up, entry.file.handle)] + reports, [LogUploadError(entry.file.name)], IsUploadErrorLog);
    FilterConcat([UploadObject(up, entry.file.handle)], reports, IsUploadErrorLog);
    FilterDropsAll(reports, IsUploadErrorLog);
  }

  /** The body of the loop: the upload, with its rejection caught and logged again. */
  method TryUpload(projectId: string, entry: Staged, withProgress: bool, reply: UploadReply)
    returns (steps: seq<Call>)
    ensures steps == FileSteps(projectId, entry, withProgress, reply)
  {
    var uploaded;
    uploaded, steps := UploadProjectFile(entry.file, projectId, entry.path, withProgress, reply);
    if uploaded.Err? {
      steps := steps + [LogUploadError(entry.file.name)];
    }
  }

  /** createProjectWithFiles. An insert error is rethrown before any upload; otherwise
      every file is attempted and the created project is returned whatever became of
      the files. */
  method CreateProjectWithFiles(draft: ProjectDraft, withProgress: bool,
                                insertReply: Result<Project>, replies: seq<UploadReply>)
    returns (result: Result<Project>, calls: seq<Call>)
    requires |replies| == |draft.files|
    ensures result == insertReply
    ensures insertReply.Err? ==> calls == [InsertProject(NewRow(draft))]
    ensures insertReply.Ok? ==>
      calls == [InsertProject(NewRow(draft))]
        + WithFilesTrace(insertReply.value.id, draft.files, withProgress, replies)
  {
    calls := [InsertProject(NewRow(draft))];
    if insertReply.Err? {
      return insertReply, calls;
    }
    var project := insertReply.value;
    var fileCalls: seq<Call> := [];
    var k := 0;
    while k < |draft.files|
      invariant 0 <= k <= |draft.files|
      invariant fileCalls == WithFilesTrace(project.id, draft.files[..k], withProgress, replies[..k])
    {
      var steps := TryUpload(project.id, draft.files[k], withProgress, replies[k]);
      WithFilesTraceStep(project.id, draft.files, withProgress, replies, k);
      fileCalls := fileCalls + steps;
      k := k + 1;
    }
    assert draft.files[..k] == draft.files && replies[..k] == replies;
    calls := calls + fileCalls;
    result := insertReply;
  }

  // ---------------------------------------------------------------------------
  // deleteProjectFile

  /** deleteProjectFile: the metadata delete is only attempted after the storage
      removal succeeded, and the first error is rethrown. */
  method DeleteProjectFile(filePath: string, storageError: Option<Failure>, dbError: Option<Failure>)
    returns (result: Outcome, calls: seq<Call>)
    ensures storageError.Some? ==> calls == [RemoveObject(filePath)] && result == Threw(storageError.value)
    ensures storageError.None? ==> calls == [RemoveObject(filePath), DeleteFileRows(filePath)]
    ensures storageError.None? ==> (result.Done? <==> dbError.None?)
    ensures result.Threw? ==> result.failure == (if storageError.Some? then storageError.value else dbError.value)
  {
    calls := [RemoveObject(filePath)];
    if storageError.Some? {
      return Threw(storageError.value), calls;
    }
    calls := calls + [DeleteFileRows(filePath)];
    if dbError.Some? {
      return Threw(dbError.value), calls;
    }
    result := Done;
  }
}
