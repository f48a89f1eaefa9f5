/** The full-page project-creation wizard: three steps (details, cover image, file
    structure), the form they fill, and the submit that hands the form to the
    projects store and opens the created project. */
module CreateProject {
  import opened Common
  import opened FileManager
  import opened Supabase
  import opened ProjectStore
  import FileStructureStep

  // ---------------------------------------------------------------------------
  // Steps

  const StepCount := 3

  /** handleNext: forward unless on the last step. */
  function NextStep(step: int): int
  {
    if step < StepCount then step + 1 else step
  }

  /** handleBack: backward unless on the first step. */
  function BackStep(step: int): int
  {
    if step > 1 then step - 1 else step
  }

  datatype StepEvent = Next | Back

  function RunSteps(step: int, events: seq<StepEvent>): int
    decreases |events|
  {
    if events == [] then step
    else
      var before := RunSteps(step, events[..|events| - 1]);
      if events[|events| - 1] == Next then NextStep(before) else BackStep(before)
  }

  /** Under any sequence of next and back the step stays between 1 and 3. */
  lemma {:induction false} StepsStayInRange(step: int, events: seq<StepEvent>)
    requires 1 <= step <= StepCount
    ensures 1 <= RunSteps(step, events) <= StepCount
    decreases |events|
  {
    if events != [] {
      StepsStayInRange(step, events[..|events| - 1]);
    }
  }

  /** Next at the last step and back at the first change nothing; elsewhere back
      undoes next and next undoes back. */
  lemma StepClamp(step: int)
    ensures NextStep(StepCount) == StepCount && BackStep(1) == 1
    ensures 1 <= step < StepCount ==> BackStep(NextStep(step)) == step
    ensures 1 < step <= StepCount ==> NextStep(BackStep(step)) == step
  {
  }

  /** The panel a step shows. */
  datatype StepPanel = DetailsPanel | CoverPanel | FilesPanel

  function PanelFor(step: int): (panel: Option<StepPanel>)
    ensures panel.Some? <==> 1 <= step <= StepCount
    ensures panel == Some(FilesPanel) <==> step == StepCount
  {
    if step == 1 then Some(DetailsPanel)
    else if step == 2 then Some(CoverPanel)
    else if step == 3 then Some(FilesPanel)
    else None
  }

  // ---------------------------------------------------------------------------
  // The form

  const SampleImages: seq<string> := [
    ProjectImageUrl,
    "https://images.unsplash.com/photo-1574359411659-15573a27fd0c?q=80&w=1000&auto=format&fit=crop",
    "https://images.unsplash.com/photo-1486406146926-c627a92ad1ab?q=80&w=2070&auto=format&fit=crop"]

  datatype ProjectForm = ProjectForm(name: string, description: string, files: seq<Staged>, coverImage: string)

  function InitialForm(): ProjectForm
  {
    ProjectForm("", "", [], SampleImages[0])
  }

  datatype DetailsField = NameField | DescriptionField

  /** The details step's onChange: one named field replaced, the rest kept. */
  function WithDetail(form: ProjectForm, field: DetailsField, value: string): (r: ProjectForm)
    ensures r.files == form.files && r.coverImage == form.coverImage
    ensures r.name == (if field == NameField then value else form.name)
    ensures r.description == (if field == DescriptionField then value else form.description)
  {
    match field
    case NameField => form.(name := value)
    case DescriptionField => form.(description := value)
  }

  /** The onFileSelect wiring: whatever list a child hands over is appended. */
  function AppendFiles(form: ProjectForm, files: seq<Staged>): ProjectForm
  {
    form.(files := form.files + files)
  }

  /** Removing a file by position in the file-structure step, seen through the
      wiring, appends the remaining list: the removed entry stays, and every other
      entry is now listed twice. */
  lemma StepRemovalAppends(form: ProjectForm, index: nat)
    requires index < |form.files|
    ensures var after := AppendFiles(form, FileStructureStep.Spliced(form.files, index)).files;
      && |after| == 2 * |form.files| - 1
      && after[..|form.files|] == form.files
      && form.files[index] in after
  {
    FileStructureStep.SplicedDropsOne(form.files, index);
    var after := AppendFiles(form, FileStructureStep.Spliced(form.files, index)).files;
    assert after[index] == form.files[index];
  }

  /** The same holds for the folder panel's removeFile: the entry is still staged. */
  lemma FolderRemovalAppends(form: ProjectForm, entry: Staged)
    requires entry in form.files
    ensures var after := AppendFiles(form, RemoveFile(form.files, entry)).files;
      entry in after && |after| >= |form.files|
  {
  }

  // ---------------------------------------------------------------------------
  // Submitting

  /** `email.split('@')[1]`: the text between the first and the second `@`, absent
      when there is no `@`. */
  function SourceDomain(email: string): Option<string>
  {
    var fields := Split(email, '@');
    if |fields| > 1 then Some(fields[1]) else None
  }

  lemma SourceDomainOfAddress(local: string, domain: string)
    requires '@' !in local && '@' !in domain
    ensures SourceDomain(local + "@" + domain) == Some(domain)
  {
    SplitFirst(local, '@', domain);
    SplitNoSep(domain, '@');
  }

  lemma SourceDomainWithoutAt(email: string)
    requires '@' !in email
    ensures SourceDomain(email) == None
  {
    SplitNoSep(email, '@');
  }

  /** The second field only: with two `@`s the text after the second one is lost. */
  lemma SourceDomainSecondFieldOnly()
    ensures SourceDomain("a@b.com") == Some("b.com")
    ensures SourceDomain("a@b@c") == Some("b")
  {
    assert "a@b.com" == "a" + "@" + "b.com";
    SourceDomainOfAddress("a", "b.com");
    assert "a@b@c" == "a" + ['@'] + "b@c";
    SplitFirst("a", '@', "b@c");
    assert "b@c" == "b" + ['@'] + "c";
    SplitFirst("b", '@', "c");
  }

  /** What createProject receives: the form (its cover image is not used) and the
      profile's id, email and derived domain. */
  function Draft(form: ProjectForm, profile: Profile): ProjectDraft
  {
    ProjectDraft(form.name, form.description, form.files, profile.id, profile.email, SourceDomain(profile.email))
  }

  /** `profile?.id && profile.email`. */
  predicate HasIdAndEmail(profile: Option<Profile>)
  {
    profile.Some? && profile.value.id != "" && profile.value.email != ""
  }

  /** The submit button's `disabled`: while a submit is loading, or while the
      name trims to nothing, that is while it is all whitespace. */
  function SubmitButtonDisabled(loading: bool, name: string): (disabled: bool)
    ensures disabled <==> loading || IsBlank(name)
    ensures !disabled ==> !loading && Trim(name) != []
  {
    TrimEmptyIffBlank(name);
    loading || Trim(name) == []
  }

  datatype SubmitResult =
    | NameMissing                      // the "Please enter a project name" alert
    | NoProfile                        // silent return
    | Created(navigateTo: string)
    | CreateFailed(failure: Failure)   // logged to the console

  class CreateProjectPage {
    var currentStep: int
    var loading: bool
    var formData: ProjectForm

    constructor ()
      ensures currentStep == 1 && !loading && formData == InitialForm()
    {
      currentStep := 1;
      loading := false;
      formData := InitialForm();
    }

    method HandleNext()
      modifies this`currentStep
      ensures currentStep == NextStep(old(currentStep))
    {
      if currentStep < StepCount {
        currentStep := currentStep + 1;
      }
    }

    method HandleBack()
      modifies this`currentStep
      ensures currentStep == BackStep(old(currentStep))
    {
      if currentStep > 1 {
        currentStep := currentStep - 1;
      }
    }

    method OnDetailsChange(field: DetailsField, value: string)
      modifies this`formData
      ensures formData == WithDetail(old(formData), field, value)
    {
      formData := WithDetail(formData, field, value);
    }

    method OnImageSelect(image: string)
      modifies this`formData
      ensures formData == old(formData).(coverImage := image)
    {
      formData := formData.(coverImage := image);
    }

    method OnFileSelect(files: seq<Staged>)
      modifies this`formData
      ensures formData == AppendFiles(old(formData), files)
    {
      formData := formData.(files := formData.files + files);
    }

    /** The submit button is disabled while loading or while the name is blank. */
    predicate SubmitDisabled()
      reads this
    {
      SubmitButtonDisabled(loading, formData.name)
    }

    /** handleSubmit. `profile` is the signed-in profile; `insertReply` and `replies`
        are the SDK's answers to the store's project insert and per-file calls. */
    method HandleSubmit(profile: Option<Profile>, store: ProjectState,
                        insertReply: Result<Project>, replies: seq<StoreFileReply>)
      returns (result: SubmitResult, calls: seq<Call>)
      requires |replies| == |formData.files|
      modifies this`loading, store`projects, store`loading, store`error
      ensures Trim(formData.name) == [] || !HasIdAndEmail(profile) ==>
        && result == (if Trim(formData.name) == [] then NameMissing else NoProfile)
        && calls == [] && loading == old(loading)
        && store.projects == old(store.projects) && store.loading == old(store.loading)
        && store.error == old(store.error)
      ensures Trim(formData.name) != [] && HasIdAndEmail(profile) ==>
        && !loading && !store.loading
        && |calls| >= 1 && calls[0] == InsertProject(NewRow(Draft(formData, profile.value)))
        && (insertReply.Ok? ==>
              && result == Created("/projects/" + insertReply.value.id)
              && store.projects == [insertReply.value] + old(store.projects)
              && store.error == None
              && calls == [InsertProject(NewRow(Draft(formData, profile.value)))]
                          + StoreFilesTrace(insertReply.value.id, profile.value.id, formData.files, replies))
        && (insertReply.Err? ==>
              var message := ErrorText(insertReply.failure, "Failed to create project");
              && result == CreateFailed(Failure(message, true))
              && store.projects == old(store.projects) && store.error == Some(message)
              && calls == [InsertProject(NewRow(Draft(formData, profile.value)))])
    {
      if Trim(formData.name) == [] {
        return NameMissing, [];
      }
      if !HasIdAndEmail(profile) {
        return NoProfile, [];
      }
      loading := true;
      var created;
      created, calls := store.CreateProject(Draft(formData, profile.value), insertReply, replies);
      if created.Ok? {
        result := Created("/projects/" + created.value.id);
      } else {
        result := CreateFailed(created.failure);
      }
      loading := false;
    }

    /** A click on the submit button: nothing happens while it is disabled, so a
        second click during a submit makes no call; an enabled button always
        passes handleSubmit's blank-name check. */
    method ClickSubmit(profile: Option<Profile>, store: ProjectState,
                       insertReply: Result<Project>, replies: seq<StoreFileReply>)
      returns (fired: bool, result: Option<SubmitResult>, calls: seq<Call>)
      requires |replies| == |formData.files|
      modifies this`loading, store`projects, store`loading, store`error
      ensures fired <==> !old(SubmitDisabled())
      ensures !fired ==>
        && result == None && calls == [] && loading == old(loading)
        && store.projects == old(store.projects) && store.loading == old(store.loading)
        && store.error == old(store.error)
      ensures fired ==> result.Some? && result.value != NameMissing
      ensures fired && HasIdAndEmail(profile) ==>
        && result.value != NoProfile
        && |calls| >= 1 && calls[0] == InsertProject(NewRow(Draft(formData, profile.value)))
    {
      fired := !SubmitDisabled();
      if !fired {
        return false, None, [];
      }
      var r;
      r, calls := HandleSubmit(profile, store, insertReply, replies);
      result := Some(r);
    }
  }
}
