/** The modal variant of the project wizard: the same three steps and form, but
    submitting hands the form to a callback supplied by the opener and then
    closes, and cancelling resets the form. */
module CreateProjectModal {
  import opened Common
  import opened FileManager
  import opened CreateProject

  /** What a submit asked of the opener: the form passed to onCreateProject, if
      it was called, and whether onClose was called afterwards. */
  datatype SubmitEffect = SubmitEffect(created: Option<ProjectForm>, closed: bool)

  /** The modal renders nothing while closed; open, it shows the current step's
      panel. */
  function ModalPanel(isOpen: bool, step: int): (panel: Option<StepPanel>)
    ensures !isOpen ==> panel == None
    ensures isOpen ==> panel == PanelFor(step)
  {
    if !isOpen then None else PanelFor(step)
  }

  /** Whatever sequence of next and back has been pressed, an open modal always
      shows one of the three panels. */
  lemma OpenModalShowsAPanel(events: seq<StepEvent>)
    ensures ModalPanel(true, RunSteps(1, events)).Some?
  {
    StepsStayInRange(1, events);
  }

  class CreateProjectModalState {
    var currentStep: int
    var loading: bool
    var formData: ProjectForm

    constructor ()
      ensures currentStep == 1 && !loading && formData == InitialForm()
    {
      currentStep := 1;
      loading := false;
      formData := InitialForm();
    }

    method HandleNext()
      modifies this`currentStep
      ensures currentStep == NextStep(old(currentStep))
    {
      if currentStep < StepCount {
        currentStep := currentStep + 1;
      }
    }

    method HandleBack()
      modifies this`currentStep
      ensures currentStep == BackStep(old(currentStep))
    {
      if currentStep > 1 {
        currentStep := currentStep - 1;
      }
    }

    method OnDetailsChange(field: DetailsField, value: string)
      modifies this`formData
      ensures formData == WithDetail(old(formData), field, value)
    {
      formData := WithDetail(formData, field, value);
    }

    method OnImageSelect(image: string)
      modifies this`formData
      ensures formData == old(formData).(coverImage := image)
    {
      formData := formData.(coverImage := image);
    }

    method OnFileSelect(files: seq<Staged>)
      modifies this`formData
      ensures formData == AppendFiles(old(formData), files)
    {
      formData := formData.(files := formData.files + files);
    }

    predicate SubmitDisabled()
      reads this
    {
      SubmitButtonDisabled(loading, formData.name)
    }

    /** handleSubmit; `reply` is how the opener's onCreateProject settled. The form
        and the step are never reset here, so a modal reopened after a successful
        create still shows the submitted form. */
    method HandleSubmit(reply: Outcome) returns (effect: SubmitEffect)
      modifies this`loading
      ensures Trim(formData.name) == [] ==> effect == SubmitEffect(None, false) && loading == old(loading)
      ensures Trim(formData.name) != [] ==>
        && effect.created == Some(formData)
        && (effect.closed <==> reply.Done?)
        && !loading
    {
      if Trim(formData.name) == [] {
        return SubmitEffect(None, false);
      }
      loading := true;
      effect := SubmitEffect(Some(formData), reply.Done?);
      loading := false;
    }

    /** A click on the submit button: nothing happens while it is disabled, so a
        click during a submit creates nothing; an enabled button always hands the
        form over. */
    method ClickSubmit(reply: Outcome) returns (fired: bool, effect: Option<SubmitEffect>)
      modifies this`loading
      ensures fired <==> !old(SubmitDisabled())
      ensures !fired ==> effect == None && loading == old(loading)
      ensures fired ==>
        && effect.Some? && effect.value.created == Some(formData)
        && (effect.value.closed <==> reply.Done?) && !loading
    {
      fired := !SubmitDisabled();
      if !fired {
        return false, None;
      }
      var e := HandleSubmit(reply);
      effect := Some(e);
    }

    /** handleClose: the form and the step go back to their initial values, then
        onClose is called. */
    method HandleClose() returns (closed: bool)
      modifies this`formData, this`currentStep
      ensures formData == InitialForm() && currentStep == 1 && closed
    {
      formData := InitialForm();
      currentStep := 1;
      closed := true;
    }
  }

  /** The two ways out differ: closing through cancel clears the form, closing
      after a successful create keeps it. */
  method CloseVersusCreate(modal: CreateProjectModalState)
    returns (keptAfterCreate: ProjectForm, afterCancel: ProjectForm)
    requires Trim(modal.formData.name) != []
    modifies modal
    ensures keptAfterCreate == old(modal.formData)
    ensures afterCancel == InitialForm()
  {
    var effect := modal.HandleSubmit(Done);
    assert effect.closed;
    keptAfterCreate := modal.formData;
    var _ := modal.HandleClose();
    afterCancel := modal.formData;
  }
}
