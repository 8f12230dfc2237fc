/**
 * `bikinlagi/app/dashboard/vps/components/vps-table.tsx`: the search filter, the per-row
 * password visibility, the credentials cell and the gating of the row menu.
 */
module VpsTable {
  import opened Wrappers
  import opened Strings
  import opened Seqs
  import opened AssetTables
  import Auth

  /** A VPS row as far as the table reads it. */
  datatype VpsRow = VpsRow(
    id: string, provider: string, ipAddress: string, location: Option<string>,
    rootUser: Option<string>, rootPassword: Option<string>, status: string)

  /** A row matches when its provider, IP address or (non-null) location contains the term. */
  predicate VpsMatches(v: VpsRow, term: string) {
    ContainsIgnoringCase(v.provider, term) || ContainsIgnoringCase(v.ipAddress, term) || OptionalContains(v.location, term)
  }

  /** `filteredVps`. */
  function FilteredVps(vps: seq<VpsRow>, term: string): seq<VpsRow> {
    Filter(vps, v => VpsMatches(v, term))
  }

  /** The filter keeps, in order, exactly the matching rows, and an empty term keeps all. */
  lemma FilteredVpsSpec(vps: seq<VpsRow>, term: string)
    ensures IsSubsequence(FilteredVps(vps, term), vps)
    ensures forall k :: 0 <= k < |FilteredVps(vps, term)| ==> VpsMatches(FilteredVps(vps, term)[k], term)
    ensures forall i :: 0 <= i < |vps| && VpsMatches(vps[i], term) ==> vps[i] in FilteredVps(vps, term)
    ensures term == "" ==> FilteredVps(vps, term) == vps
  {
    FilterIsSubsequence(vps, v => VpsMatches(v, term));
    if term == "" {
      forall i | 0 <= i < |vps| ensures VpsMatches(vps[i], term) {
        ContainsEmpty(vps[i].provider);
      }
      FilterKeepsAll(vps, v => VpsMatches(v, term));
    }
  }

  /** `showPasswords[id]`, an absent id reading as hidden. */
  function IsVisible(shown: map<string, bool>, id: string): bool {
    id in shown && shown[id]
  }

  /** The map after `togglePasswordVisibility(id)`: `{ ...prev, [id]: !prev[id] }`. */
  function Toggled(shown: map<string, bool>, id: string): map<string, bool> {
    shown[id := !IsVisible(shown, id)]
  }

  /** A toggle flips the given id and leaves the visibility of every other id as it was. */
  lemma ToggleFlipsOnlyId(shown: map<string, bool>, id: string, other: string)
    ensures IsVisible(Toggled(shown, id), id) == !IsVisible(shown, id)
    ensures other != id ==> IsVisible(Toggled(shown, id), other) == IsVisible(shown, other)
    ensures Toggled(shown, id).Keys == shown.Keys + {id}
  {
  }

  /** Toggling the same id twice restores its visibility, and every other entry. */
  lemma ToggleTwice(shown: map<string, bool>, id: string)
    ensures IsVisible(Toggled(Toggled(shown, id), id), id) == IsVisible(shown, id)
    ensures forall k :: k in shown ==> k in Toggled(Toggled(shown, id), id) && IsVisible(Toggled(Toggled(shown, id), id), k) == IsVisible(shown, k)
  {
  }

  /** The `showPasswords` hook. */
  class PasswordVisibility {
    var shown: map<string, bool>

    constructor ()
      ensures shown == map[]
    {
      shown := map[];
    }

    predicate Visible(id: string)
      reads this
    {
      IsVisible(shown, id)
    }

    method Toggle(id: string)
      modifies this
      ensures shown == Toggled(old(shown), id)
      ensures Visible(id) == !old(Visible(id))
    {
      shown := shown[id := !IsVisible(shown, id)];
    }
  }

  const Mask := "••••••••"

  /** The credentials cell: a dash, or the user and the password, masked unless visible. */
  datatype CredentialsCell = NoCredentials | Credentials(user: string, password: string)

  function CredentialsOf(v: VpsRow, visible: bool): CredentialsCell {
    if Truthy(v.rootUser) && Truthy(v.rootPassword) then
      Credentials(v.rootUser.value, if visible then v.rootPassword.value else Mask)
    else NoCredentials
  }

  /** Credentials are shown only when both user and password are present, and the password
      itself only while it is marked visible. */
  lemma CredentialsMasking(v: VpsRow, visible: bool)
    ensures CredentialsOf(v, visible).Credentials? <==> Truthy(v.rootUser) && Truthy(v.rootPassword)
    ensures CredentialsOf(v, visible).Credentials? && !visible ==> CredentialsOf(v, visible).password == Mask
    ensures CredentialsOf(v, visible).Credentials? && v.rootPassword.value != Mask ==>
      (CredentialsOf(v, visible).password == v.rootPassword.value <==> visible)
  {
  }

  /** A freshly rendered table masks every password. */
  lemma InitiallyMasked(v: VpsRow)
    ensures CredentialsOf(v, IsVisible(map[], v.id)).Credentials? ==> CredentialsOf(v, IsVisible(map[], v.id)).password == Mask
  {
  }

  /** The edit and delete entries of the row menu. */
  predicate OffersEditAndDelete(role: Auth.Role) {
    CanOfferAssetActions(role)
  }

  /** The finance role is offered neither entry; both admin roles are offered both. */
  lemma MenuByRole(role: Auth.Role)
    ensures OffersEditAndDelete(role) <==> role != Auth.Finance
  {
    AssetActionsByRole(role);
  }

  /** `location || '-'`. */
  function LocationDisplay(v: VpsRow): (r: string)
    ensures Truthy(v.location) ==> r == v.location.value
    ensures r == "-" <==> !Truthy(v.location) || v.location.value == "-"
  {
    OrElse(v.location, "-")
  }
}
