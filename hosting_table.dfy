/**
 * `bikinlagi/app/dashboard/hosting/components/hosting-table.tsx`: the search filter and the
 * gating of the row menu.
 */
module HostingTable {
  import opened Wrappers
  import opened Strings
  import opened Seqs
  import opened AssetTables
  import Auth

  /** A hosting row as far as the filter reads it. */
  datatype HostingRow = HostingRow(id: string, provider: string, package: string, primaryDomain: Option<string>, status: string)

  /** A row matches when its provider, package or (non-null) primary domain contains the term. */
  predicate HostingMatches(h: HostingRow, term: string) {
    ContainsIgnoringCase(h.provider, term) || ContainsIgnoringCase(h.package, term) || OptionalContains(h.primaryDomain, term)
  }

  /** `filteredHosting`. */
  function FilteredHosting(hosting: seq<HostingRow>, term: string): seq<HostingRow> {
    Filter(hosting, h => HostingMatches(h, term))
  }

  /** The filter keeps, in order, exactly the matching rows, and an empty term keeps all. */
  lemma FilteredHostingSpec(hosting: seq<HostingRow>, term: string)
    ensures IsSubsequence(FilteredHosting(hosting, term), hosting)
    ensures forall k :: 0 <= k < |FilteredHosting(hosting, term)| ==> HostingMatches(FilteredHosting(hosting, term)[k], term)
    ensures forall i :: 0 <= i < |hosting| && HostingMatches(hosting[i], term) ==> hosting[i] in FilteredHosting(hosting, term)
    ensures term == "" ==> FilteredHosting(hosting, term) == hosting
  {
    FilterIsSubsequence(hosting, h => HostingMatches(h, term));
    if term == "" {
      forall i | 0 <= i < |hosting| ensures HostingMatches(hosting[i], term) {
        ContainsEmpty(hosting[i].provider);
      }
      FilterKeepsAll(hosting, h => HostingMatches(h, term));
    }
  }

  /** The whole row menu (edit and delete) is rendered only under `canManageAssets`. */
  predicate ShowsMenu(role: Auth.Role) {
    CanOfferAssetActions(role)
  }

  /** The finance role sees no menu at all; both admin roles see it. */
  lemma MenuByRole(role: Auth.Role)
    ensures ShowsMenu(role) <==> role != Auth.Finance
  {
    AssetActionsByRole(role);
  }

  /** `primary_domain || '-'`. */
  function PrimaryDomainDisplay(h: HostingRow): (r: string)
    ensures Truthy(h.primaryDomain) ==> r == h.primaryDomain.value
    ensures r == "-" <==> !Truthy(h.primaryDomain) || h.primaryDomain.value == "-"
  {
    OrElse(h.primaryDomain, "-")
  }
}
