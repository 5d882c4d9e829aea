/** Which sidebar entry is highlighted for the current path. */
module AppSidebar {

  datatype NavItem = NavItem(title: string, path: string)

  const DashboardPath: string := "/dashboard"
  const UsersPath: string := "/dashboard/users"

  /** `mainNavItems` */
  const MainNavItems: seq<NavItem> := [NavItem("Dashboard", DashboardPath), NavItem("Users", UsersPath)]

  /** `isActive(path)` at `pathname`: the dashboard entry only on its own page, any other
      entry on every path that starts with its own. */
  function IsActive(pathname: string, path: string): (active: bool)
    ensures path == DashboardPath ==> (active <==> pathname == DashboardPath)
    ensures path != DashboardPath ==> (active <==> path <= pathname)
  {
    if path == DashboardPath then pathname == DashboardPath else path <= pathname
  }

  /** The prefix test is on characters, not path segments: the users entry is also
      highlighted on a path that merely begins with its text. */
  lemma UsersActiveOnLongerName()
    ensures IsActive("/dashboard/usersX", UsersPath)
    ensures !IsActive("/dashboard/users", DashboardPath)
  {
    assert UsersPath == "/dashboard/usersX"[..|UsersPath|];
  }

  /** For every path at most one entry is highlighted. */
  lemma AtMostOneActive(pathname: string, i: nat, j: nat)
    requires i < j < |MainNavItems|
    ensures !(IsActive(pathname, MainNavItems[i].path) && IsActive(pathname, MainNavItems[j].path))
  {
    assert |DashboardPath| < |UsersPath|;
  }

  /** Exactly the dashboard entry on its page, exactly the users entry under its path,
      and none elsewhere. */
  lemma ActiveEntry(pathname: string)
    ensures pathname == DashboardPath ==> IsActive(pathname, DashboardPath) && !IsActive(pathname, UsersPath)
    ensures UsersPath <= pathname ==> IsActive(pathname, UsersPath) && !IsActive(pathname, DashboardPath)
    ensures pathname != DashboardPath && !(UsersPath <= pathname) ==>
              !IsActive(pathname, DashboardPath) && !IsActive(pathname, UsersPath)
  {
  }
}
