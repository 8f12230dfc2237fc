/**
 * `bikinlagi/app/dashboard/staff/components/staff-table.tsx`: the search filter, the role badge
 * and label, and which rows mark or protect the signed-in user. The `deleteId` state is
 * `AssetTables.DeleteGuard`.
 */
module StaffTable {
  import opened Strings
  import opened Seqs
  import opened AssetTables
  import Auth

  /** A staff row; `role` is the stored text, which need not be one of the three roles. */
  datatype StaffMember = StaffMember(id: string, name: string, email: string, role: string)

  /** A row matches when its name, email or role contains the term, ignoring case. */
  predicate StaffMatches(m: StaffMember, term: string) {
    ContainsIgnoringCase(m.name, term) || ContainsIgnoringCase(m.email, term) || ContainsIgnoringCase(m.role, term)
  }

  /** `filteredStaff`. */
  function FilteredStaff(staff: seq<StaffMember>, term: string): seq<StaffMember> {
    Filter(staff, m => StaffMatches(m, term))
  }

  /** The filter keeps, in order, exactly the matching rows, and an empty term keeps all. */
  lemma FilteredStaffSpec(staff: seq<StaffMember>, term: string)
    ensures IsSubsequence(FilteredStaff(staff, term), staff)
    ensures forall k :: 0 <= k < |FilteredStaff(staff, term)| ==> StaffMatches(FilteredStaff(staff, term)[k], term)
    ensures forall i :: 0 <= i < |staff| && StaffMatches(staff[i], term) ==> staff[i] in FilteredStaff(staff, term)
    ensures term == "" ==> FilteredStaff(staff, term) == staff
  {
    FilterIsSubsequence(staff, m => StaffMatches(m, term));
    if term == "" {
      forall i | 0 <= i < |staff| ensures StaffMatches(staff[i], term) {
        ContainsEmpty(staff[i].name);
      }
      FilterKeepsAll(staff, m => StaffMatches(m, term));
    }
  }

  /** `getRoleColor`. */
  function RoleVariant(role: string): BadgeVariant {
    if role == "super_admin" then Destructive
    else if role == "admin_web" then Default
    else if role == "finance" then Secondary
    else Outline
  }

  /** `getRoleLabel`: unknown role text is shown as it is. */
  function RoleLabel(role: string): string {
    if role == "super_admin" then "Super Admin"
    else if role == "admin_web" then "Admin Web"
    else if role == "finance" then "Finance"
    else role
  }

  /** The three roles get three different badges and their own labels; any other text gets the
      outline badge and is shown unchanged. */
  lemma RoleBadgeCases(role: string)
    ensures forall r: Auth.Role :: RoleVariant(Auth.RoleName(r)) != Outline
    ensures RoleVariant("super_admin") == Destructive && RoleLabel("super_admin") == "Super Admin"
    ensures RoleVariant("admin_web") == Default && RoleLabel("admin_web") == "Admin Web"
    ensures RoleVariant("finance") == Secondary && RoleLabel("finance") == "Finance"
    ensures Auth.ParseRole(role).None? ==> RoleVariant(role) == Outline && RoleLabel(role) == role
  {
  }

  /** The test of the "Anda" ("you") badge in the table view. */
  predicate IsSelf(m: StaffMember, currentUserId: string) {
    m.id == currentUserId
  }

  /** The test of the delete entry, the same in the table's menu and the card's footer. */
  predicate OffersDelete(m: StaffMember, currentUserId: string) {
    m.id != currentUserId
  }

  /** The listed rows that get a delete entry. */
  function DeletableRows(staff: seq<StaffMember>, term: string, currentUserId: string): seq<StaffMember> {
    Filter(FilteredStaff(staff, term), m => OffersDelete(m, currentUserId))
  }

  /** The listed rows that carry the "Anda" badge in the table view. */
  function BadgedRows(staff: seq<StaffMember>, term: string, currentUserId: string): seq<StaffMember> {
    Filter(FilteredStaff(staff, term), m => IsSelf(m, currentUserId))
  }

  /** The delete entries are offered, in listing order, for exactly the listed rows other than
      the signed-in user's; in the table view every listed row carries either the "Anda" badge
      or a delete entry, and never both. */
  lemma {:induction false} NoSelfDelete(staff: seq<StaffMember>, term: string, currentUserId: string)
    ensures forall k :: 0 <= k < |DeletableRows(staff, term, currentUserId)| ==>
      DeletableRows(staff, term, currentUserId)[k].id != currentUserId
    ensures IsSubsequence(DeletableRows(staff, term, currentUserId), FilteredStaff(staff, term))
    ensures forall k :: 0 <= k < |FilteredStaff(staff, term)| && FilteredStaff(staff, term)[k].id != currentUserId ==>
      FilteredStaff(staff, term)[k] in DeletableRows(staff, term, currentUserId)
    ensures |DeletableRows(staff, term, currentUserId)| + |BadgedRows(staff, term, currentUserId)| == |FilteredStaff(staff, term)|
  {
    FilterIsSubsequence(FilteredStaff(staff, term), m => OffersDelete(m, currentUserId));
    FilterPartition(FilteredStaff(staff, term), m => OffersDelete(m, currentUserId), m => IsSelf(m, currentUserId));
  }
}
