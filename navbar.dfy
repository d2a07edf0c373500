/** The decisions the navigation bar makes: which link is highlighted and
    which badge colour the role gets. */
module Navbar {
  import opened Common
  import opened FrontTypes
  import opened AuthContext

  /** `isActive(path)` at the current `pathname`: the exact path, or any
      path it is a prefix of, except that `/` is only active on itself. */
  predicate IsActive(pathname: string, path: string) {
    pathname == path || (path != "/" && StartsWith(pathname, path))
  }

  /** The home link is active only on the home page. */
  lemma HomeActiveOnlyAtHome(pathname: string)
    ensures IsActive(pathname, "/") <==> pathname == "/"
  {
  }

  /** Any other link is active exactly on the paths that start with it. The
      prefix need not end at a segment boundary. */
  lemma {:induction false} ActiveIsPrefix(pathname: string, path: string)
    requires path != "/"
    ensures IsActive(pathname, path) <==> StartsWith(pathname, path)
  {
    if pathname == path {
      assert pathname[..|path|] == path;
    }
  }

  lemma NoSegmentBoundary()
    ensures IsActive("/stationsX", "/stations")
    ensures IsActive("/sessions/history", "/sessions/history")
    ensures !IsActive("/sessions/current", "/sessions/history")
    ensures !IsActive("/stations", "/")
  {
    assert "/stationsX"[..|"/stations"|] == "/stations";
    assert "/sessions/current"[..|"/sessions/history"|][10] != "/sessions/history"[10];
  }

  /** `linkClass(path)` */
  function LinkClass(pathname: string, path: string): (r: string)
    ensures r == "nav-link-active" <==> IsActive(pathname, path)
    ensures r == "nav-link" <==> !IsActive(pathname, path)
  {
    if IsActive(pathname, path) then "nav-link-active" else "nav-link"
  }

  /** `roleColors`: purple for an administrator, blue for technical
      support, green for everyone else; the administrator flag is looked at
      first. */
  function RoleColors(isAdmin: bool, isTechSupport: bool): (r: string)
    ensures isAdmin <==> r == "badge-purple"
    ensures r == "badge-blue" <==> !isAdmin && isTechSupport
    ensures r == "badge-green" <==> !isAdmin && !isTechSupport
  {
    if isAdmin then "badge-purple" else if isTechSupport then "badge-blue" else "badge-green"
  }

  /** The badge of a signed-in user follows the role string: `ADMIN`
      purple, `TECH_SUPPORT` blue, anything else, including an unknown
      role, green. */
  lemma BadgeForRole(user: User)
    ensures RoleColors(IsAdmin(Some(user)), IsTechSupport(Some(user))) ==
      if user.role == AdminRole then "badge-purple"
      else if user.role == TechSupportRole then "badge-blue"
      else "badge-green"
  {
  }
}
