/** The settings page: a form seeded from the profile and the stored settings,
    and a submit that writes the profile's name and phone remotely and, only if
    that succeeds, updates the session store's profile and settings. */
module SettingsPage {
  import opened Common
  import opened Supabase
  import opened AuthStore

  /** The form; the interval is the text of its input, and the e-mail field is
      shown disabled. */
  datatype SettingsForm = SettingsForm(
    fullName: string,
    email: string,
    phone: string,
    defaultViewMode: ViewMode,
    autoSaveInterval: string,
    showVersionHistory: bool,
    enableAnnotations: bool,
    enableComments: bool,
    autoReload: bool,
    emailNotifications: bool,
    documentUpdates: bool,
    commentNotifications: bool,
    versionUpdates: bool,
    twoFactorAuth: bool,
    requireApproval: bool,
    documentWatermark: bool)

  /** `value || ''` on a nullable text column. */
  function OrEmpty(s: Option<string>): string
  {
    if s.Some? then s.value else ""
  }

  /** The form as first rendered: profile fields (empty when absent) and the
      current settings, the interval as its decimal text. */
  function InitialForm(profile: Option<Profile>, settings: Settings): SettingsForm
  {
    SettingsForm(
      if profile.Some? then OrEmpty(profile.value.fullName) else "",
      if profile.Some? then profile.value.email else "",
      if profile.Some? then OrEmpty(profile.value.phone) else "",
      settings.defaultViewMode, IntToString(settings.autoSaveInterval),
      settings.showVersionHistory, settings.enableAnnotations, settings.enableComments,
      settings.autoReload, settings.emailNotifications, settings.documentUpdates,
      settings.commentNotifications, settings.versionUpdates, settings.twoFactorAuth,
      settings.requireApproval, settings.documentWatermark)
  }

  /** The settings a submit writes: every key from the form, the interval parsed. */
  function FormSettings(form: SettingsForm): Settings
  {
    Settings(form.autoReload, form.defaultViewMode, ParseInt(form.autoSaveInterval),
      form.showVersionHistory, form.enableAnnotations, form.enableComments,
      form.emailNotifications, form.documentUpdates, form.commentNotifications,
      form.versionUpdates, form.twoFactorAuth, form.requireApproval, form.documentWatermark)
  }

  /** The remote profiles update: the row selected by id (absent without a
      profile), and the only two columns sent. */
  datatype ProfileUpdate = ProfileUpdate(id: Option<string>, fullName: string, phone: string)

  function UpdateRequest(profile: Option<Profile>, form: SettingsForm): (r: ProfileUpdate)
    ensures r.fullName == form.fullName && r.phone == form.phone
    ensures r.id.Some? <==> profile.Some?
    ensures profile.Some? ==> r.id == Some(profile.value.id)
  {
    ProfileUpdate(if profile.Some? then Some(profile.value.id) else None, form.fullName, form.phone)
  }

  /** `{ ...profile, full_name, phone }`: every other column is kept. Without a
      profile the spread contributes nothing, which the model renders as a
      profile whose other columns are empty. */
  function UpdatedProfile(profile: Option<Profile>, form: SettingsForm): (r: Profile)
    ensures r.fullName == Some(form.fullName) && r.phone == Some(form.phone)
    ensures profile.Some? ==>
      && r.id == profile.value.id && r.email == profile.value.email
      && r.companyId == profile.value.companyId && r.companyName == profile.value.companyName
  {
    match profile
    case Some(p) => p.(fullName := Some(form.fullName), phone := Some(form.phone))
    case None => Profile("", "", Some(form.fullName), Some(form.phone), None, None)
  }

  /** Submitting the form untouched writes back exactly the settings it was seeded
      from (the interval survives its round trip through text, NaN included). */
  lemma UntouchedFormKeepsSettings(profile: Option<Profile>, settings: Settings)
    ensures FormSettings(InitialForm(profile, settings)) == settings
  {
    ParseIntToString(settings.autoSaveInterval);
  }

  /** ... and, for a profile with a name and a phone, the profile too. */
  lemma UntouchedFormKeepsProfile(p: Profile, settings: Settings)
    requires p.fullName.Some? && p.phone.Some?
    ensures UpdatedProfile(Some(p), InitialForm(Some(p), settings)) == p
  {
  }

  const UpdateFailed := "Failed to update settings"
  const UpdateSucceeded := "Settings updated successfully"

  class SettingsPageState {
    var loading: bool
    var error: Option<string>
    var success: Option<string>
    var formData: SettingsForm

    constructor (profile: Option<Profile>, settings: Settings)
      ensures formData == InitialForm(profile, settings)
      ensures !loading && error == None && success == None
    {
      formData := InitialForm(profile, settings);
      loading := false;
      error := None;
      success := None;
    }

    /** handleSubmit. `updateError` is the reply of the remote profiles update.
        The store is touched only after that update succeeded. */
    method HandleSubmit(store: AuthState, updateError: Option<Failure>) returns (request: ProfileUpdate)
      modifies this`loading, this`error, this`success, store`profile, store`settings
      ensures request == UpdateRequest(old(store.profile), formData)
      ensures !loading
      ensures updateError.Some? ==>
        && store.profile == old(store.profile) && store.settings == old(store.settings)
        && error == Some(ErrorText(updateError.value, UpdateFailed)) && success == None
      ensures updateError.None? ==>
        && store.profile == Some(UpdatedProfile(old(store.profile), formData))
        && store.settings == FormSettings(formData)
        && error == None && success == Some(UpdateSucceeded)
    {
      loading := true;
      error := None;
      success := None;
      request := UpdateRequest(store.profile, formData);
      if updateError.Some? {
        error := Some(ErrorText(updateError.value, UpdateFailed));
      } else {
        store.SetProfile(Some(UpdatedProfile(store.profile, formData)));
        FullPatchOverwrites(store.settings, FormSettings(formData));
        store.UpdateSettings(FullPatch(FormSettings(formData)));
        success := Some(UpdateSucceeded);
      }
      loading := false;
    }
  }
}
