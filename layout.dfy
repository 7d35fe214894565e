/** The dashboard frame (app/dashboard/layout.tsx): what it renders for the session's
    state, when it sends the visitor to the login page, and the sidebar links each
    role is given. */
module Layout {
  import opened Common
  import opened Schema

  const LoginPath: string := "/login"

  /** What the frame renders. */
  datatype Screen = ConfigurationError | Spinner | Nothing | Shell

  /** An error message is shown only when there is a non-empty one (`if (error)`). */
  predicate Truthy(error: Option<string>)
  {
    error.Some? && error.value != ""
  }

  /** The frame's render: the configuration error first, then the spinner while the
      session loads, nothing without a user, and otherwise the sidebar shell. */
  function LayoutScreen(error: Option<string>, loading: bool, user: Option<Id>): (r: Screen)
    ensures r == ConfigurationError <==> Truthy(error)
    ensures !Truthy(error) && loading ==> r == Spinner
    ensures !Truthy(error) && !loading ==> (r == Shell <==> user.Some?)
  {
    if Truthy(error) then ConfigurationError
    else if loading then Spinner
    else if user.None? then Nothing
    else Shell
  }

  /** The redirect effect: done loading, no user and no error. */
  predicate RedirectsToLogin(error: Option<string>, loading: bool, user: Option<Id>)
  {
    !loading && user.None? && !Truthy(error)
  }

  /** The visitor is sent to the login page exactly when the frame renders nothing, so a
      rendered shell always has a user and an error screen never moves away. */
  lemma RedirectIffNothing(error: Option<string>, loading: bool, user: Option<Id>)
    ensures RedirectsToLogin(error, loading, user) <==> LayoutScreen(error, loading, user) == Nothing
  {
  }

  /** The line under the brand name in the sidebar. */
  function Subtitle(role: string): (r: string)
    ensures role == Freelancer ==> r == "Freelancer Dashboard"
    ensures role == Employer ==> r == "Employer Dashboard"
    ensures role == Admin ==> r == "Admin Dashboard"
    ensures r != "" <==> role == Freelancer || role == Employer || role == Admin
  {
    if role == Freelancer then "Freelancer Dashboard"
    else if role == Employer then "Employer Dashboard"
    else if role == Admin then "Admin Dashboard"
    else ""
  }

  /** A sidebar entry. */
  datatype Link = Link(title: string, href: string)

  /** The entries every signed-in user gets, before and after the role's own. */
  const Home: Link := Link("Dashboard", "/dashboard")
  const Shared: seq<Link> := [Link("Messages", "/dashboard/messages"), Link("Payments", "/dashboard/payments"),
                              Link("Settings", "/dashboard/settings")]

  /** The role's own entries. */
  function RoleLinks(role: string): seq<Link>
  {
    if role == Freelancer then
      [Link("Available Jobs", "/dashboard/freelancer/jobs"), Link("My Projects", "/dashboard/freelancer/projects"),
       Link("Skill Assessment", "/dashboard/freelancer/skills")]
    else if role == Employer then
      [Link("Post a Job", "/dashboard/employer/post-job"), Link("My Jobs", "/dashboard/employer/jobs"),
       Link("Active Projects", "/dashboard/employer/projects"), Link("Find Talent", "/dashboard/employer/talent")]
    else if role == Admin then
      [Link("Manage Users", "/dashboard/admin/users"), Link("Manage Jobs", "/dashboard/admin/jobs"),
       Link("Disputes", "/dashboard/admin/disputes"), Link("Analytics", "/dashboard/admin/analytics")]
    else []
  }

  /** The sidebar of a user of this role, top to bottom. */
  function MenuLinks(role: string): (r: seq<Link>)
    ensures |r| >= 4 && r[0] == Home && r[|r| - 3..] == Shared
    ensures r[1..|r| - 3] == RoleLinks(role)
  {
    [Home] + RoleLinks(role) + Shared
  }

  /** Each role's own entries lead into that role's area, `/dashboard/<role>/`; a user
      with no known role gets only the shared entries. */
  lemma RoleLinksStayInArea(role: string)
    ensures forall i :: 0 <= i < |RoleLinks(role)| ==> StartsWith(RoleLinks(role)[i].href, "/dashboard/" + role + "/")
    ensures role != Freelancer && role != Employer && role != Admin ==> MenuLinks(role) == [Home] + Shared
  {
    var area := "/dashboard/" + role + "/";
    var links := RoleLinks(role);
    if role == Freelancer {
      assert area == "/dashboard/freelancer/";
      assert StartsWith(links[0].href, area) && StartsWith(links[1].href, area) && StartsWith(links[2].href, area);
    } else if role == Employer {
      assert area == "/dashboard/employer/";
      assert StartsWith(links[0].href, area) && StartsWith(links[1].href, area);
      assert StartsWith(links[2].href, area) && StartsWith(links[3].href, area);
    } else if role == Admin {
      assert area == "/dashboard/admin/";
      assert StartsWith(links[0].href, area) && StartsWith(links[1].href, area);
      assert StartsWith(links[2].href, area) && StartsWith(links[3].href, area);
    } else {
      assert [Home] + links + Shared == [Home] + Shared;
    }
  }
}
