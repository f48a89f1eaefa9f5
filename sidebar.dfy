/** The sidebar: which navigation links a profile sees, the "Individual" badge,
    the avatar letter, and the hover flag that widens it. */
module Sidebar {
  import opened Common
  import opened Supabase
  import CompanySetup

  /** `profile?.company_name === 'Smortr User'`. */
  predicate IsIndividual(profile: Option<Profile>)
  {
    profile.Some? && profile.value.companyName == Some(CompanySetup.IndividualCompanyName)
  }

  datatype NavItem = NavItem(caption: string, to: string)

  const ProjectsItem := NavItem("Projects", "/projects")
  const TeamItem := NavItem("Team", "/team")
  const SettingsItem := NavItem("Settings", "/settings")

  /** Projects first, Settings last, and Team between them only for users who
      are not individuals. */
  function NavItems(profile: Option<Profile>): (items: seq<NavItem>)
    ensures |items| == (if IsIndividual(profile) then 2 else 3)
    ensures items[0] == ProjectsItem && items[|items| - 1] == SettingsItem
    ensures TeamItem in items <==> !IsIndividual(profile)
  {
    [ProjectsItem] + (if !IsIndividual(profile) then [TeamItem] else []) + [SettingsItem]
  }

  /** The badge shows exactly for individuals. */
  function ShowsBadge(profile: Option<Profile>): (shown: bool)
    ensures shown <==> TeamItem !in NavItems(profile)
  {
    IsIndividual(profile)
  }

  /** `userName[0]?.toUpperCase()`: nothing for an empty name. */
  function AvatarLetter(userName: string): (letter: Option<char>)
    ensures letter.None? <==> userName == ""
    ensures letter.Some? ==> letter.value == UpperChar(userName[0]) && !('a' <= letter.value <= 'z')
  {
    if userName == "" then None else Some(UpperChar(userName[0]))
  }

  /** A profile set up through the individual path, whose company name is the
      one that path inserts, sees no Team link and the badge. */
  lemma IndividualSetupHidesTeam(p: Profile)
    requires p.companyName == Some(CompanySetup.IndividualCompany(Some(p)).name)
    ensures TeamItem !in NavItems(Some(p)) && ShowsBadge(Some(p))
  {
  }

  class SidebarState {
    var isExpanded: bool

    constructor ()
      ensures !isExpanded
    {
      isExpanded := false;
    }

    method MouseEnter()
      modifies this`isExpanded
      ensures isExpanded
    {
      isExpanded := true;
    }

    method MouseLeave()
      modifies this`isExpanded
      ensures !isExpanded
    {
      isExpanded := false;
    }
  }
}
