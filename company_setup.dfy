/** Onboarding: the user says whether they are an individual or an employee, and
    the submit either creates a personal company, links the profile to the
    company that owns the entered domain, or creates that company. */
module CompanySetup {
  import opened Common
  import opened Supabase

  datatype UserType = Individual | Employee

  datatype CompanyDetails = CompanyDetails(name: string, domain: string, address: string)

  const IndividualCompanyName := "Smortr User"
  const IndividualAddress := "Individual Account"
  const LookupNoRowsCode := "PGRST116"
  const SetupFailed := "Failed to set up company. Please try again."

  /** The remote writes and reads a submit makes, in order. */
  datatype SetupCall =
    | InsertCompany(details: CompanyDetails)
    | LookupCompany(domain: string)
    | LinkProfile(profileId: Option<string>, companyId: string)

  /** The companies select by domain with `.single()`: the row's id if one was
      returned, and the error reply with its code if there was one. */
  datatype LookupReply = LookupReply(companyId: Option<string>, error: Option<LookupError>)
  datatype LookupError = LookupError(code: string, failure: Failure)

  /** `profile?.id` in a template: the text "undefined" when there is no profile. */
  function IdText(profile: Option<Profile>): string
  {
    if profile.Some? then profile.value.id else "undefined"
  }

  /** The company an individual gets: a fixed name and address, and a domain
      derived from the profile id. */
  function IndividualCompany(profile: Option<Profile>): (c: CompanyDetails)
    ensures c.name == IndividualCompanyName && c.address == IndividualAddress
    ensures |c.domain| >= |"smortr-user-"| && c.domain[..|"smortr-user-"|] == "smortr-user-"
    ensures profile.Some? ==> c.domain[|"smortr-user-"|..] == profile.value.id
  {
    var domain := "smortr-user-" + IdText(profile);
    assert domain[..|"smortr-user-"|] == "smortr-user-";
    CompanyDetails(IndividualCompanyName, domain, IndividualAddress)
  }

  /** Distinct profile ids give distinct individual domains. */
  lemma IndividualDomainsDistinct(a: Profile, b: Profile)
    requires a.id != b.id
    ensures IndividualCompany(Some(a)).domain != IndividualCompany(Some(b)).domain
  {
    var da, db := IndividualCompany(Some(a)).domain, IndividualCompany(Some(b)).domain;
    assert da[|"smortr-user-"|..] == a.id && db[|"smortr-user-"|..] == b.id;
  }

  /** A lookup error other than "no rows" aborts the employee path. */
  predicate LookupAborts(lookup: LookupReply)
  {
    lookup.error.Some? && lookup.error.value.code != LookupNoRowsCode
  }

  class CompanySetupState {
    var step: int
    var userType: Option<UserType>
    var details: CompanyDetails
    var loading: bool
    var error: Option<string>

    constructor ()
      ensures step == 1 && userType == None && details == CompanyDetails("", "", "")
      ensures !loading && error == None
    {
      step := 1;
      userType := None;
      details := CompanyDetails("", "", "");
      loading := false;
      error := None;
    }

    /** handleUserTypeSelect: individuals skip the company form. */
    method HandleUserTypeSelect(t: UserType)
      modifies this`userType, this`step
      ensures userType == Some(t)
      ensures step == (if t == Individual then 3 else 2)
    {
      userType := Some(t);
      step := if t == Individual then 3 else 2;
    }

    method SetName(text: string)
      modifies this`details
      ensures details == old(details).(name := text)
    {
      details := details.(name := text);
    }

    /** The domain input lower-cases what is typed. */
    method SetDomain(text: string)
      modifies this`details
      ensures details == old(details).(domain := ToLower(text))
      ensures forall i :: 0 <= i < |details.domain| ==> !('A' <= details.domain[i] <= 'Z')
    {
      details := details.(domain := ToLower(text));
    }

    method SetAddress(text: string)
      modifies this`details
      ensures details == old(details).(address := text)
    {
      details := details.(address := text);
    }

    /** handleCompanySubmit, given the signed-in profile and the replies of the
        company insert, the domain lookup and the profile update. The profile in
        the session store is not touched on any path. */
    method HandleCompanySubmit(profile: Option<Profile>, insertError: Option<Failure>,
                               lookup: LookupReply, linkError: Option<Failure>)
      returns (calls: seq<SetupCall>, navigateTo: Option<string>)
      modifies this`loading, this`error
      ensures !loading
      ensures navigateTo.Some? <==> error == None
      ensures navigateTo.Some? ==> navigateTo == Some("/projects")
      ensures userType == Some(Individual) ==>
        && calls == [InsertCompany(IndividualCompany(profile))]
        && (insertError.None? <==> navigateTo.Some?)
        && (insertError.Some? ==> error == Some(ErrorText(insertError.value, SetupFailed)))
      ensures userType != Some(Individual) && LookupAborts(lookup) ==>
        && calls == [LookupCompany(details.domain)]
        && error == Some(ErrorText(lookup.error.value.failure, SetupFailed))
      ensures userType != Some(Individual) && !LookupAborts(lookup) && lookup.companyId.Some? ==>
        && calls == [LookupCompany(details.domain),
                     LinkProfile(if profile.Some? then Some(profile.value.id) else None, lookup.companyId.value)]
        && (linkError.None? <==> navigateTo.Some?)
        && (linkError.Some? ==> error == Some(ErrorText(linkError.value, SetupFailed)))
      ensures userType != Some(Individual) && !LookupAborts(lookup) && lookup.companyId.None? ==>
        && calls == [LookupCompany(details.domain), InsertCompany(details)]
        && (insertError.None? <==> navigateTo.Some?)
        && (insertError.Some? ==> error == Some(ErrorText(insertError.value, SetupFailed)))
    {
      loading := true;
      error := None;
      navigateTo := None;
      var thrown: Option<Failure> := None;
      if userType == Some(Individual) {
        calls := [InsertCompany(IndividualCompany(profile))];
        thrown := insertError;
      } else {
        calls := [LookupCompany(details.domain)];
        if LookupAborts(lookup) {
          thrown := Some(lookup.error.value.failure);
        } else if lookup.companyId.Some? {
          calls := calls + [LinkProfile(if profile.Some? then Some(profile.value.id) else None, lookup.companyId.value)];
          thrown := linkError;
        } else {
          calls := calls + [InsertCompany(details)];
          thrown := insertError;
        }
      }
      if thrown.None? {
        navigateTo := Some("/projects");
      } else {
        error := Some(ErrorText(thrown.value, SetupFailed));
      }
      loading := false;
    }
  }
}
