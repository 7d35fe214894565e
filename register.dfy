/** The sign-up page (app/register/page.tsx): a freelancer tab and an employer tab
    that each create an account and then the account's profile row. The sign-up call
    itself belongs to the authentication service and is an input here. */
module Register {
  import opened Common
  import opened Schema
  import opened Backend

  const DashboardPath: string := "/dashboard"
  const LoginPath: string := "/login"

  /** `searchParams.get("type") || "freelancer"`: the tab opened first. */
  function InitialTab(typeParam: Option<string>): (r: string)
    ensures typeParam.Some? && typeParam.value != "" ==> r == typeParam.value
    ensures typeParam.None? || typeParam.value == "" ==> r == Freelancer
  {
    if typeParam.Some? && typeParam.value != "" then typeParam.value else Freelancer
  }

  /** `text || null`: an empty input is stored as null. */
  function OrNull(text: string): (r: Option<string>)
    ensures r.None? <==> text == ""
    ensures r.Some? ==> r.value == text
  {
    if text == "" then None else Some(text)
  }

  /** What the form holds when a tab's button is pressed. */
  datatype RegisterFields = RegisterFields(
    email: string, password: string, fullName: string,
    skills: seq<string>, hourlyRate: string, portfolioUrl: string,
    companyName: string, requiredSkills: seq<string>)

  /** The profile row written for a new account of this role: a freelancer's skills, rate
      and portfolio, or an employer's company and the skills it looks for; none for any
      other role. */
  function NewProfile(role: string, userId: Id, f: RegisterFields, parse: string -> int): (r: Option<Profile>)
    ensures r.Some? <==> role == Freelancer || role == Employer
    ensures r.Some? ==> r.value.id == userId && r.value.role == role && r.value.fullName == Some(f.fullName)
    ensures role == Freelancer ==>
      && r.value.skills == Some(f.skills)
      && (r.value.hourlyRate.Some? <==> f.hourlyRate != "")
      && (r.value.hourlyRate.Some? ==> r.value.hourlyRate.value == parse(f.hourlyRate))
      && r.value.portfolioUrl == OrNull(f.portfolioUrl) && r.value.companyName == None
    ensures role == Employer ==>
      && r.value.skills == Some(f.requiredSkills)
      && r.value.companyName == OrNull(f.companyName)
      && r.value.hourlyRate == None && r.value.portfolioUrl == None
  {
    if role == Freelancer then
      var rate := if f.hourlyRate != "" then Some(parse(f.hourlyRate)) else None;
      Some(Profile(userId, Some(f.fullName), Freelancer, Some(f.skills), rate, OrNull(f.portfolioUrl), None))
    else if role == Employer then
      Some(Profile(userId, Some(f.fullName), Employer, Some(f.requiredSkills), None, None, OrNull(f.companyName)))
    else None
  }

  /** The authentication service's answer to the sign-up request. */
  datatype SignUpOutcome =
    | SignUpError
    | SignedUp(user: Option<Id>, session: bool)

  /** Where a successful registration goes: straight to the dashboard when the service
      signed the user in, otherwise to the login page to confirm the e-mail first. */
  function Destination(session: bool): (r: string)
    ensures r == DashboardPath <==> session
    ensures r == LoginPath <==> !session
  {
    if session then DashboardPath else LoginPath
  }

  /** The registration page; `fields` is what has been typed on either tab. */
  class RegisterForm {
    const store: Store
    var fields: RegisterFields

    constructor (store: Store)
      ensures this.store == store
      ensures fields == RegisterFields("", "", "", [], "", "", "", [])
    {
      this.store := store;
      fields := RegisterFields("", "", "", [], "", "", "", []);
    }

    /** handleRegister(role): refused without e-mail, password and name; after a sign-up
        that returns a user, that user's profile is inserted (its failure is ignored) and
        the page moves on; a sign-up error or a missing user moves nowhere. */
    method HandleRegister(role: string, signUp: SignUpOutcome, parse: string -> int, profileFails: bool)
      returns (navigate: Option<string>)
      modifies store`profiles
      ensures navigate.Some? <==>
        fields.email != "" && fields.password != "" && fields.fullName != ""
        && signUp.SignedUp? && signUp.user.Some?
      ensures navigate.Some? ==> navigate.value == Destination(signUp.session)
      ensures var row := if navigate.Some? then NewProfile(role, signUp.user.value, fields, parse) else None;
        store.profiles == if row.Some? && !profileFails then old(store.profiles) + [row.value] else old(store.profiles)
    {
      if fields.email == "" || fields.password == "" || fields.fullName == "" {
        return None;
      }
      if signUp.SignUpError? || signUp.user.None? {
        return None;
      }
      var row := NewProfile(role, signUp.user.value, fields, parse);
      if row.Some? {
        var _ := store.InsertProfile(row.value, profileFails);
      }
      navigate := Some(Destination(signUp.session));
    }
  }
}
