/** The dashboard landing page (app/dashboard/page.tsx): once the session is loaded
    it forwards each role to its own dashboard. */
module DashboardHome {
  import opened Common
  import opened Schema
  import Layout

  /** The forwarding effect: nothing while loading or for an unknown role, otherwise
      `/dashboard/<role>`. */
  function RouteFor(loading: bool, role: string): (r: Option<string>)
    ensures r.Some? <==> !loading && (role == Freelancer || role == Employer || role == Admin)
    ensures r.Some? ==> r.value == "/dashboard/" + role
  {
    if loading then None
    else if role == Freelancer then Some("/dashboard/freelancer")
    else if role == Employer then Some("/dashboard/employer")
    else if role == Admin then Some("/dashboard/admin")
    else None
  }

  /** The title of the fourth tile. */
  function FourthTileLabel(role: string): (r: string)
    ensures r == "Earnings" <==> role == Freelancer
    ensures role != Freelancer ==> r == "Payments"
  {
    if role == Freelancer then "Earnings" else "Payments"
  }

  /** A user who is forwarded somewhere has a sidebar whose role entries all lie below
      the page they are forwarded to, and one who is not (an unknown role) has none. */
  lemma ForwardMatchesSidebar(role: string)
    ensures var route := RouteFor(false, role);
      && (route.Some? ==> forall i :: 0 <= i < |Layout.RoleLinks(role)| ==>
            StartsWith(Layout.RoleLinks(role)[i].href, route.value + "/"))
      && (route.None? ==> Layout.RoleLinks(role) == [])
  {
    Layout.RoleLinksStayInArea(role);
  }
}
