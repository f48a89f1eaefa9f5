/** The dashboard shell: nothing without a profile; otherwise the sidebar with
    the e-mail's local part, the header with the user's initial, and either the
    given page or the nested routes. */
module Dashboard {
  import opened Common
  import opened Supabase
  import Sidebar

  /** `profile.full_name?.[0]?.toUpperCase() || profile.email[0].toUpperCase()`.
      `None` when there is no full name to take a letter from and the e-mail is
      empty: the expression then throws while rendering. */
  function UserInitial(profile: Profile): (initial: Option<char>)
    ensures initial.None? <==> !Truthy(profile.fullName) && profile.email == ""
    ensures Truthy(profile.fullName) ==> initial == Some(UpperChar(profile.fullName.value[0]))
    ensures !Truthy(profile.fullName) && profile.email != "" ==> initial == Some(UpperChar(profile.email[0]))
  {
    if Truthy(profile.fullName) then Some(UpperChar(profile.fullName.value[0]))
    else if profile.email != "" then Some(UpperChar(profile.email[0]))
    else None
  }

  /** `profile.email.split('@')[0]`: the text before the first `@`. */
  function DisplayName(profile: Profile): (name: string)
    ensures |name| <= |profile.email| && name == profile.email[..|name|] && '@' !in name
    ensures |name| < |profile.email| ==> profile.email[|name|] == '@'
  {
    FirstFieldIsPrefix(profile.email, '@');
    Split(profile.email, '@')[0]
  }

  lemma DisplayNameOfAddress(p: Profile, local: string, domain: string)
    requires p.email == local + "@" + domain && '@' !in local
    ensures DisplayName(p) == local
  {
    SplitFirst(local, '@', domain);
  }

  /** The sidebar's avatar shows the e-mail's first letter, except for an e-mail
      that starts with `@`, whose display name is empty. */
  lemma AvatarFromEmail(p: Profile)
    requires p.email != ""
    ensures p.email[0] != '@' ==> Sidebar.AvatarLetter(DisplayName(p)) == Some(UpperChar(p.email[0]))
    ensures p.email[0] == '@' ==> Sidebar.AvatarLetter(DisplayName(p)).None?
  {
  }

  datatype Page = ProjectsList | Teams | SettingsPage | ImportPage | Given(name: string)

  /** `children || <Routes>`: given children win; otherwise the nested table,
      which shows nothing for an unknown path. */
  function Content(children: Option<string>, pathname: string): (page: Option<Page>)
    ensures children.Some? ==> page == Some(Given(children.value))
    ensures children.None? && page.Some? ==> pathname in {"/projects", "/team", "/settings", "/import"}
  {
    if children.Some? then Some(Given(children.value))
    else if pathname == "/projects" then Some(ProjectsList)
    else if pathname == "/team" then Some(Teams)
    else if pathname == "/settings" then Some(SettingsPage)
    else if pathname == "/import" then Some(ImportPage)
    else None
  }

  datatype Shell = Shell(userName: string, initial: Option<char>, content: Option<Page>)

  /** The whole render: nothing without a profile. */
  function Render(profile: Option<Profile>, children: Option<string>, pathname: string): (r: Option<Shell>)
    ensures r.None? <==> profile.None?
    ensures r.Some? ==> r.value.userName == DisplayName(profile.value) && r.value.initial == UserInitial(profile.value)
  {
    if profile.None? then None
    else Some(Shell(DisplayName(profile.value), UserInitial(profile.value), Content(children, pathname)))
  }
}
