/**
 * `bikinlagi/components/dashboard/sidebar.tsx`: the navigation list a role sees and the test
 * that highlights the current item.
 */
module Sidebar {
  import opened Wrappers
  import Auth

  /** A navigation entry; the icon is markup and is not modelled. */
  datatype NavItem = NavItem(name: string, href: string)

  /** The five entries every role sees, in this order. */
  const BaseNavigation: seq<NavItem> := [
    NavItem("Dashboard", "/dashboard"),
    NavItem("Domain", "/dashboard/domains"),
    NavItem("Hosting", "/dashboard/hosting"),
    NavItem("VPS", "/dashboard/vps"),
    NavItem("Website", "/dashboard/websites")
  ]

  const StaffItem := NavItem("Staff", "/dashboard/staff")

  /** The list a role sees. */
  function Navigation(userRole: string): seq<NavItem> {
    if userRole == "super_admin" then BaseNavigation + [StaffItem] else BaseNavigation
  }

  /** The component's construction: the base list, then a `push` for the super admin. */
  method BuildNavigation(userRole: string) returns (navigation: seq<NavItem>)
    ensures navigation == Navigation(userRole)
  {
    navigation := BaseNavigation;
    if userRole == "super_admin" {
      navigation := navigation + [StaffItem];
    }
  }

  /** Every role gets the base entries first, in order; only the super admin gets one more,
      and it is Staff, last. */
  lemma NavigationShape(userRole: string)
    ensures |Navigation(userRole)| >= 5 && Navigation(userRole)[..5] == BaseNavigation
    ensures |Navigation(userRole)| == 6 <==> userRole == "super_admin"
    ensures |Navigation(userRole)| == 5 <==> userRole != "super_admin"
    ensures userRole == "super_admin" ==> Navigation(userRole)[5] == StaffItem
    ensures StaffItem in Navigation(userRole) <==> userRole == "super_admin"
  {
    assert StaffItem !in BaseNavigation;
    if userRole == "super_admin" {
      assert Navigation(userRole)[..5] == BaseNavigation;
    }
  }

  /** The Staff entry is shown exactly to the role that may manage staff. */
  lemma StaffEntryFollowsPermission(userRole: string, r: Auth.Role)
    requires Auth.ParseRole(userRole) == Some(r)
    ensures StaffItem in Navigation(userRole) <==> Auth.CanManageStaff(r)
  {
    NavigationShape(userRole);
    Auth.RoleNameRoundTrip(r);
  }

  /** No two entries share an href. */
  lemma HrefsDistinct(userRole: string)
    ensures forall i, j :: 0 <= i < j < |Navigation(userRole)| ==> Navigation(userRole)[i].href != Navigation(userRole)[j].href
  {
  }

  /** An entry is highlighted iff the path is exactly its href. */
  predicate IsActive(pathname: string, item: NavItem) {
    pathname == item.href
  }

  /** Hence at most one entry is ever highlighted. */
  lemma AtMostOneActive(userRole: string, pathname: string, i: int, j: int)
    requires 0 <= i < |Navigation(userRole)| && 0 <= j < |Navigation(userRole)|
    requires IsActive(pathname, Navigation(userRole)[i]) && IsActive(pathname, Navigation(userRole)[j])
    ensures i == j
  {
    HrefsDistinct(userRole);
  }
}
