/** `bikinlagi/lib/auth-utils.ts`: the three staff roles and the permissions derived from them. */
module Auth {
  import opened Wrappers

  /** `UserRole`. */
  datatype Role = SuperAdmin | AdminWeb | Finance

  /** The string a role is stored and compared as. */
  function RoleName(r: Role): string {
    match r
    case SuperAdmin => "super_admin"
    case AdminWeb => "admin_web"
    case Finance => "finance"
  }

  /** The role a stored string stands for, if any. */
  function ParseRole(s: string): (r: Option<Role>)
    ensures r.Some? ==> RoleName(r.value) == s
  {
    if s == "super_admin" then Some(SuperAdmin)
    else if s == "admin_web" then Some(AdminWeb)
    else if s == "finance" then Some(Finance)
    else None
  }

  /** `canManageStaff`. */
  predicate CanManageStaff(r: Role) {
    r == SuperAdmin
  }

  /** `canManageAssets`. */
  predicate CanManageAssets(r: Role) {
    r == SuperAdmin || r == AdminWeb
  }

  /** `canUpdateWhois`: finance, or anyone who may manage assets. */
  predicate CanUpdateWhois(r: Role) {
    r == Finance || CanManageAssets(r)
  }

  /** Role names are distinct and parse back to their role. */
  lemma RoleNameRoundTrip(r: Role)
    ensures ParseRole(RoleName(r)) == Some(r)
  {
  }

  /** Each permission includes the next: staff management, then asset management, then WHOIS. */
  lemma PermissionChain(r: Role)
    ensures CanManageStaff(r) ==> CanManageAssets(r)
    ensures CanManageAssets(r) ==> CanUpdateWhois(r)
  {
  }

  /** Exactly who holds each permission. */
  lemma PermissionTable(r: Role)
    ensures CanManageStaff(r) <==> r == SuperAdmin
    ensures CanManageAssets(r) <==> r != Finance
    ensures CanUpdateWhois(r)
  {
  }

  /** Finance staff may refresh WHOIS data but manage neither assets nor staff. */
  lemma FinanceIsWhoisOnly()
    ensures CanUpdateWhois(Finance) && !CanManageAssets(Finance) && !CanManageStaff(Finance)
  {
  }
}
