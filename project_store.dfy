/** The projects store: the list of projects, the open project, and the loading and
    error fields, updated by fetch, create, update and delete actions whose SDK
    calls are replies passed in. */
module ProjectStore {
  import opened Common
  import opened FileManager
  import opened Supabase

  // ---------------------------------------------------------------------------
  // The per-file loop of createProject

  /** The SDK's answers for one staged file: the random token and clock reading that
      name the object, the upload's error, the public URL and the row insert's error. */
  datatype StoreFileReply = StoreFileReply(
    token: string, now: nat, uploadError: Option<Failure>, publicUrl: string, fileError: Option<Failure>)

  function StoreUploadPath(projectId: string, entry: Staged, reply: StoreFileReply): string
  {
    StoragePath(projectId, entry.path, StorageName(entry.file.name, reply.token, reply.now))
  }

  /** One iteration: the upload, then the metadata row only if the upload succeeded,
      with any failure caught and logged. */
  function StoreFileSteps(projectId: string, creatorId: string, entry: Staged, reply: StoreFileReply): seq<Call>
  {
    var path := StoreUploadPath(projectId, entry, reply);
    [UploadObject(path, entry.file.handle)]
    + (if reply.uploadError.Some? then [LogUploadError(entry.file.name)]
       else ([InsertFileRow(FileRow(projectId, Some(creatorId), entry.file.name, entry.file.size,
                                     entry.file.mime, path, reply.publicUrl))]
         + (if reply.fileError.Some? then [LogUploadError(entry.file.name)] else [])))
  }

  function StoreFilesTrace(projectId: string, creatorId: string, files: seq<Staged>, replies: seq<StoreFileReply>): seq<Call>
    requires |replies| == |files|
    decreases |files|
  {
    if files == [] then []
    else
      var n := |files| - 1;
      StoreFilesTrace(projectId, creatorId, files[..n], replies[..n])
      + StoreFileSteps(projectId, creatorId, files[n], replies[n])
  }

  lemma StoreFilesTraceStep(projectId: string, creatorId: string, files: seq<Staged>,
                            replies: seq<StoreFileReply>, k: nat)
    requires |replies| == |files| && k < |files|
    ensures StoreFilesTrace(projectId, creatorId, files[..k + 1], replies[..k + 1])
      == StoreFilesTrace(projectId, creatorId, files[..k], replies[..k])
         + StoreFileSteps(projectId, creatorId, files[k], replies[k])
  {
    assert files[..k + 1][..k] == files[..k];
    assert replies[..k + 1][..k] == replies[..k];
  }

  lemma StoreFileStepsUploadOnce(projectId: string, creatorId: string, entry: Staged, reply: StoreFileReply)
    ensures Filter(StoreFileSteps(projectId, creatorId, entry, reply), IsUploadObject)
      == [UploadObject(StoreUploadPath(projectId, entry, reply), entry.file.handle)]
  {
    var t := StoreFileSteps(projectId, creatorId, entry, reply);
    assert t == [t[0]] + t[1..];
    assert forall i :: 1 <= i < |t| ==> !IsUploadObject(t[i]);
    FilterConcat([t[0]], t[1..], IsUploadObject);
    FilterDropsAll(t[1..], IsUploadObject);
  }

  /** Every staged file is uploaded exactly once, in staging order, whatever became
      of the files before it. */
  lemma {:induction false} StoreEveryFileUploadedInOrder(projectId: string, creatorId: string,
                                                         files: seq<Staged>, replies: seq<StoreFileReply>)
    requires |replies| == |files|
    ensures Filter(StoreFilesTrace(projectId, creatorId, files, replies), IsUploadObject)
      == seq(|files|, i requires 0 <= i < |files| =>
           UploadObject(StoreUploadPath(projectId, files[i], replies[i]), files[i].file.handle))
    decreases |files|
  {
    if files != [] {
      var n := |files| - 1;
      StoreEveryFileUploadedInOrder(projectId, creatorId, files[..n], replies[..n]);
      FilterConcat(StoreFilesTrace(projectId, creatorId, files[..n], replies[..n]),
        StoreFileSteps(projectId, creatorId, files[n], replies[n]), IsUploadObject);
      StoreFileStepsUploadOnce(projectId, creatorId, files[n], replies[n]);
    }
  }

  /** Every metadata row written belongs to a staged file whose upload succeeded,
      and records that file's storage path, name and the creating user. */
  lemma {:induction false} StoreRowsFollowUploads(projectId: string, creatorId: string,
                                                  files: seq<Staged>, replies: seq<StoreFileReply>, c: Call)
    requires |replies| == |files|
    requires c in StoreFilesTrace(projectId, creatorId, files, replies) && c.InsertFileRow?
    ensures exists i :: (0 <= i < |files| && replies[i].uploadError.None?
      && c.row == FileRow(projectId, Some(creatorId), files[i].file.name, files[i].file.size,
                          files[i].file.mime, StoreUploadPath(projectId, files[i], replies[i]), replies[i].publicUrl))
    decreases |files|
  {
    var n := |files| - 1;
    var before := StoreFilesTrace(projectId, creatorId, files[..n], replies[..n]);
    if c in before {
      StoreRowsFollowUploads(projectId, creatorId, files[..n], replies[..n], c);
      var i :| 0 <= i < n && replies[..n][i].uploadError.None?
        && c.row == FileRow(projectId, Some(creatorId), files[..n][i].file.name, files[..n][i].file.size,
                            files[..n][i].file.mime, StoreUploadPath(projectId, files[..n][i], replies[..n][i]),
                            replies[..n][i].publicUrl);
      assert files[..n][i] == files[i] && replies[..n][i] == replies[i];
    } else {
      assert replies[n].uploadError.None?;
    }
  }

  /** A failed upload leaves no metadata row for that file and does not stop the
      files after it. */
  lemma FailedUploadSkipsRow(projectId: string, creatorId: string, entry: Staged, reply: StoreFileReply)
    requires reply.uploadError.Some?
    ensures StoreFileSteps(projectId, creatorId, entry, reply)
      == [UploadObject(StoreUploadPath(projectId, entry, reply), entry.file.handle), LogUploadError(entry.file.name)]
  {
  }

  // ---------------------------------------------------------------------------
  // List maintenance

  /** `projects.findIndex(p => p.id === id)`, absent for -1. */
  function FirstIndexById(projects: seq<Project>, id: string): (r: Option<nat>)
    ensures r.Some? ==> (r.value < |projects| && projects[r.value].id == id
      && forall j :: 0 <= j < r.value ==> projects[j].id != id)
    ensures r.None? ==> forall j :: 0 <= j < |projects| ==> projects[j].id != id
    decreases |projects|
  {
    if projects == [] then None
    else if projects[0].id == id then Some(0)
    else match FirstIndexById(projects[1..], id)
      case None => None
      case Some(k) => Some(k + 1)
  }

  /** The list after updateProject's index assignment. */
  function ReplaceFirstById(projects: seq<Project>, id: string, updated: Project): seq<Project>
  {
    match FirstIndexById(projects, id)
    case None => projects
    case Some(i) => projects[i := updated]
  }

  /** Only the first project carrying the id is replaced; every other position,
      later ones with the same id included, keeps its project. */
  lemma ReplaceFirstByIdOnlyFirst(projects: seq<Project>, id: string, updated: Project)
    ensures var r := ReplaceFirstById(projects, id, updated);
      && |r| == |projects|
      && (forall j :: 0 <= j < |r| && r[j] != projects[j] ==>
            r[j] == updated && projects[j].id == id && forall k :: 0 <= k < j ==> projects[k].id != id)
      && ((exists j :: 0 <= j < |projects| && projects[j].id == id) ==> updated in r)
  {
  }

  function OtherId(id: string): Project -> bool
  {
    (p: Project) => p.id != id
  }

  /** deleteProject's filter drops every project with the id and keeps the rest. */
  lemma DeleteFilterExact(projects: seq<Project>, id: string, p: Project)
    ensures p in Filter(projects, OtherId(id)) <==> p in projects && p.id != id
  {
    FilterMember(projects, OtherId(id), p);
  }

  /** The storage removals deleteProject issues, one per listed path, in order. */
  function Removals(paths: Option<seq<string>>): (r: seq<Call>)
    ensures paths.None? ==> r == []
    ensures paths.Some? ==> (|r| == |paths.value|
      && forall i :: 0 <= i < |r| ==> r[i] == RemoveObject(paths.value[i]))
  {
    match paths
    case None => []
    case Some(ps) => seq(|ps|, i requires 0 <= i < |ps| => RemoveObject(ps[i]))
  }

  // ---------------------------------------------------------------------------
  // The store

  class ProjectState {
    var projects: seq<Project>
    var currentProject: Option<Project>
    var loading: bool
    var error: Option<string>

    constructor ()
      ensures projects == [] && currentProject == None && !loading && error == None
    {
      projects := [];
      currentProject := None;
      loading := false;
      error := None;
    }

    /** fetchProjects. `reply` is the list query; a null list reads as empty. */
    method FetchProjects(reply: Result<Option<seq<Project>>>)
      modifies this`projects, this`loading, this`error
      ensures !loading
      ensures reply.Ok? ==> error == None && projects == (if reply.value.Some? then reply.value.value else [])
      ensures reply.Err? ==>
        projects == old(projects) && error == Some(ErrorText(reply.failure, "Failed to fetch projects"))
    {
      loading := true;
      error := None;
      if reply.Err? {
        error := Some(ErrorText(reply.failure, "Failed to fetch projects"));
      } else if reply.value.Some? {
        projects := reply.value.value;
      } else {
        projects := [];
      }
      loading := false;
    }

    /** fetchProject. */
    method FetchProject(id: string, reply: Result<Project>)
      modifies this`currentProject, this`loading, this`error
      ensures !loading
      ensures reply.Ok? ==> error == None && currentProject == Some(reply.value)
      ensures reply.Err? ==>
        currentProject == old(currentProject) && error == Some(ErrorText(reply.failure, "Failed to fetch project"))
    {
      loading := true;
      error := None;
      if reply.Err? {
        error := Some(ErrorText(reply.failure, "Failed to fetch project"));
      } else {
        currentProject := Some(reply.value);
      }
      loading := false;
    }

    /** createProject. An insert error is stored and rethrown wrapped in a new Error
        before any upload; otherwise every file is attempted, the project is
        prepended once and returned whatever became of the files. */
    method CreateProject(data: ProjectDraft, insertReply: Result<Project>, replies: seq<StoreFileReply>)
      returns (result: Result<Project>, calls: seq<Call>)
      requires |replies| == |data.files|
      modifies this`projects, this`loading, this`error
      ensures !loading
      ensures |calls| >= 1 && calls[0] == InsertProject(NewRow(data))
      ensures insertReply.Err? ==>
        var message := ErrorText(insertReply.failure, "Failed to create project");
        && projects == old(projects) && error == Some(message)
        && result == Err(Failure(message, true)) && calls == [InsertProject(NewRow(data))]
      ensures insertReply.Ok? ==>
        && projects == [insertReply.value] + old(projects) && error == None && result == insertReply
        && calls == [InsertProject(NewRow(data))]
             + StoreFilesTrace(insertReply.value.id, data.creatorId, data.files, replies)
    {
      loading := true;
      error := None;
      calls := [InsertProject(NewRow(data))];
      if insertReply.Err? {
        var message := ErrorText(insertReply.failure, "Failed to create project");
        error := Some(message);
        loading := false;
        return Err(Failure(message, true)), calls;
      }
      var project := insertReply.value;
      var fileCalls: seq<Call> := [];
      for k := 0 to |data.files|
        invariant fileCalls == StoreFilesTrace(project.id, data.creatorId, data.files[..k], replies[..k])
        invariant projects == old(projects) && error == None
      {
        var steps := TryStoreFile(project.id, data.creatorId, data.files[k], replies[k]);
        StoreFilesTraceStep(project.id, data.creatorId, data.files, replies, k);
        fileCalls := fileCalls + steps;
      }
      assert data.files[..|data.files|] == data.files && replies[..|replies|] == replies;
      calls := calls + fileCalls;
      projects := [project] + projects;
      loading := false;
      result := insertReply;
    }

    /** The body of createProject's loop for one file, with its try/catch. */
    static method TryStoreFile(projectId: string, creatorId: string, entry: Staged, reply: StoreFileReply)
      returns (steps: seq<Call>)
      ensures steps == StoreFileSteps(projectId, creatorId, entry, reply)
    {
      var path := StoragePath(projectId, entry.path, StorageName(entry.file.name, reply.token, reply.now));
      steps := [UploadObject(path, entry.file.handle)];
      if reply.uploadError.Some? {
        steps := steps + [LogUploadError(entry.file.name)];
        return;
      }
      steps := steps + [InsertFileRow(FileRow(projectId, Some(creatorId), entry.file.name, entry.file.size,
                                              entry.file.mime, path, reply.publicUrl))];
      if reply.fileError.Some? {
        steps := steps + [LogUploadError(entry.file.name)];
      }
    }

    /** updateProject. On success the first project with the id, and the open project
        if it has the id, become the updated row; on failure nothing but the error
        changes and the failure is rethrown. */
    method UpdateProject(id: string, reply: Result<Project>) returns (result: Outcome)
      modifies this`projects, this`currentProject, this`loading, this`error
      ensures !loading
      ensures reply.Err? ==>
        && projects == old(projects) && currentProject == old(currentProject)
        && error == Some(ErrorText(reply.failure, "Failed to update project")) && result == Threw(reply.failure)
      ensures reply.Ok? ==>
        && projects == ReplaceFirstById(old(projects), id, reply.value)
        && currentProject == (if old(currentProject).Some? && old(currentProject).value.id == id
                              then Some(reply.value) else old(currentProject))
        && error == None && result == Done
    {
      loading := true;
      error := None;
      if reply.Err? {
        error := Some(ErrorText(reply.failure, "Failed to update project"));
        loading := false;
        return Threw(reply.failure);
      }
      var index := -1;
      var i := 0;
      while i < |projects| && index == -1
        invariant 0 <= i <= |projects|
        invariant index == -1 ==> forall j :: 0 <= j < i ==> projects[j].id != id
        invariant index != -1 ==> (index == i - 1 && projects[index].id == id
          && forall j :: 0 <= j < index ==> projects[j].id != id)
      {
        if projects[i].id == id {
          index := i;
        }
        i := i + 1;
      }
      if index != -1 {
        projects := projects[index := reply.value];
      }
      if currentProject.Some? && currentProject.value.id == id {
        currentProject := Some(reply.value);
      }
      loading := false;
      result := Done;
    }

    /** deleteProject. `listed` is the file-path query (absent when it returned no
        data), `deleteError` the project delete's error; storage removals are issued
        one per path before the delete, and their results are not inspected. */
    method DeleteProject(id: string, listed: Option<seq<string>>, deleteError: Option<Failure>)
      returns (result: Outcome, calls: seq<Call>)
      modifies this`projects, this`currentProject, this`loading, this`error
      ensures !loading
      ensures calls == [ListFilePaths(id)] + Removals(listed) + [DeleteProjectRow(id)]
      ensures deleteError.Some? ==>
        && projects == old(projects) && currentProject == old(currentProject)
        && error == Some(ErrorText(deleteError.value, "Failed to delete project"))
        && result == Threw(deleteError.value)
      ensures deleteError.None? ==>
        && projects == Filter(old(projects), OtherId(id))
        && currentProject == (if old(currentProject).Some? && old(currentProject).value.id == id
                              then None else old(currentProject))
        && error == None && result == Done
    {
      loading := true;
      error := None;
      calls := [ListFilePaths(id)];
      var removals: seq<Call> := [];
      if listed.Some? {
        var paths := listed.value;
        for k := 0 to |paths|
          invariant removals == Removals(Some(paths[..k]))
          invariant projects == old(projects) && currentProject == old(currentProject) && error == None
        {
          removals := removals + [RemoveObject(paths[k])];
        }
        assert paths[..|paths|] == paths;
      }
      calls := calls + removals + [DeleteProjectRow(id)];
      if deleteError.Some? {
        error := Some(ErrorText(deleteError.value, "Failed to delete project"));
        loading := false;
        return Threw(deleteError.value), calls;
      }
      projects := Filter(projects, OtherId(id));
      if currentProject.Some? && currentProject.value.id == id {
        currentProject := None;
      }
      loading := false;
      result := Done;
    }
  }
}
