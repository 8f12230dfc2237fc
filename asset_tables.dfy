/**
 * Rules that the four asset tables of `bikinlagi/app/dashboard` (domains, hosting, VPS,
 * websites) and the staff table write out identically: the case-insensitive test of an optional
 * column, the status badge, the expiry warning, the edit/delete gating by role and the
 * `deleteId` confirmation state. Each table's own module uses these.
 */
module AssetTables {
  import opened Wrappers
  import opened Strings
  import opened ExpiryUtils
  import Auth

  /** `value?.toLowerCase().includes(term.toLowerCase())`: a null column never matches. */
  predicate OptionalContains(value: Option<string>, term: string) {
    value.Some? && ContainsIgnoringCase(value.value, term)
  }

  /** The badge variants of the UI library. */
  datatype BadgeVariant = Default | Destructive | Secondary | Outline

  /** `getStatusColor` of the asset tables. */
  function StatusVariant(status: string): BadgeVariant {
    if status == "active" then Default
    else if status == "expired" then Destructive
    else if status == "pending" then Secondary
    else Outline
  }

  /** The badge text: one word for each of the three known statuses, nothing otherwise. */
  function StatusText(status: string): string {
    if status == "active" then "Aktif"
    else if status == "expired" then "Kedaluwarsa"
    else if status == "pending" then "Pending"
    else ""
  }

  /** The four-way mapping with outline as the default, and a badge with no text exactly for
      the statuses that get the outline. */
  lemma StatusBadgeCases(status: string)
    ensures StatusVariant("active") == Default
    ensures StatusVariant("expired") == Destructive
    ensures StatusVariant("pending") == Secondary
    ensures StatusVariant(status) == Outline <==> status !in {"active", "expired", "pending"}
    ensures StatusText(status) == "" <==> StatusVariant(status) == Outline
  {
  }

  /** The red "n hari lagi" line under an expiry date: shown when there is a date and the
      whole-day count is at most 30. `None` stands for a missing date (for which the source
      computes no count). */
  predicate ExpiryWarning(daysLeft: Option<int>) {
    daysLeft.Some? && daysLeft.value <= 30
  }

  /** The tables' warning appears for exactly the counts that `getExpiryStatus` labels, but
      with its own text: a passed date reads as a negative count, never as "Expired". */
  lemma ExpiryWarningAgreesWithBadge(daysLeft: Option<int>)
    ensures ExpiryWarning(daysLeft) <==> GetExpiryStatus(daysLeft).badge.Some?
    ensures ExpiryWarning(daysLeft) && daysLeft.value > 0 ==> GetExpiryStatus(daysLeft).badge == Some(DaysLeftLabel(daysLeft.value))
    ensures ExpiryWarning(daysLeft) && daysLeft.value <= 0 ==> GetExpiryStatus(daysLeft).badge != Some(DaysLeftLabel(daysLeft.value))
  {
    if ExpiryWarning(daysLeft) && daysLeft.value <= 0 {
      DaysLeftLabelShape(daysLeft.value);
    }
  }

  /** The edit and delete entries of the hosting, VPS and websites tables, and the delete entry
      of the domains table, are offered under `canManageAssets`. */
  predicate CanOfferAssetActions(role: Auth.Role) {
    Auth.CanManageAssets(role)
  }

  /** So the finance role is never offered them and the two admin roles always are. */
  lemma AssetActionsByRole(role: Auth.Role)
    ensures CanOfferAssetActions(role) <==> role != Auth.Finance
  {
    Auth.PermissionTable(role);
  }

  /** The `deleteId` hook and its confirmation dialog. */
  class DeleteGuard {
    var deleteId: Option<string>

    /** The dialog is open while `deleteId` is truthy (`open={!!deleteId}`). */
    predicate DialogOpen()
      reads this
    {
      Truthy(deleteId)
    }

    constructor ()
      ensures deleteId == None && !DialogOpen()
    {
      deleteId := None;
    }

    /** A delete entry sets the id of its row. */
    method Request(id: string)
      modifies this
      ensures deleteId == Some(id)
      ensures id != "" ==> DialogOpen()
    {
      deleteId := Some(id);
    }

    /** `onOpenChange`: closing the dialog forgets the id. */
    method Dismiss()
      modifies this
      ensures deleteId == None && !DialogOpen()
    {
      deleteId := None;
    }

    /** `handleDelete`: with no id it returns at once and changes nothing; otherwise it returns
        the row to delete (the delete call itself is not modelled) and clears the id,
        whether or not the delete succeeds. */
    method Confirm() returns (target: Option<string>)
      modifies this
      ensures !old(DialogOpen()) ==> target == None && deleteId == old(deleteId)
      ensures old(DialogOpen()) ==> target == old(deleteId) && deleteId == None
      ensures !DialogOpen()
    {
      if !Truthy(deleteId) {
        target := None;
        return;
      }
      target := deleteId;
      deleteId := None;
    }
  }

  /** Requesting a row's deletion and confirming deletes that row, and only that row, and leaves
      the dialog closed. */
  method RequestThenConfirm(guard: DeleteGuard, id: string) returns (target: Option<string>)
    requires id != ""
    modifies guard
    ensures target == Some(id)
    ensures !guard.DialogOpen()
  {
    guard.Request(id);
    target := guard.Confirm();
  }
}
