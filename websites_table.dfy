/**
 * `bikinlagi/app/dashboard/websites/components/websites-table.tsx`: the search filter, which
 * provider the "Hosting/VPS" column shows, and the gating of the row menu.
 */
module WebsitesTable {
  import opened Wrappers
  import opened Strings
  import opened Seqs
  import opened AssetTables
  import Auth

  /** The joined hosting and VPS records of a website. */
  datatype HostingRef = HostingRef(provider: string, package: string)
  datatype VpsRef = VpsRef(provider: string)

  /** A website row as far as the table reads it. */
  datatype WebsiteRow = WebsiteRow(
    id: string, domain: string, cms: Option<string>, hosting: Option<HostingRef>, vps: Option<VpsRef>, status: string)

  function HostingProvider(w: WebsiteRow): Option<string> {
    if w.hosting.Some? then Some(w.hosting.value.provider) else None
  }

  function VpsProvider(w: WebsiteRow): Option<string> {
    if w.vps.Some? then Some(w.vps.value.provider) else None
  }

  /** A row matches when its domain, CMS, hosting provider or VPS provider contains the term. */
  predicate WebsiteMatches(w: WebsiteRow, term: string) {
    || ContainsIgnoringCase(w.domain, term)
    || OptionalContains(w.cms, term)
    || OptionalContains(HostingProvider(w), term)
    || OptionalContains(VpsProvider(w), term)
  }

  /** `filteredWebsites`. */
  function FilteredWebsites(websites: seq<WebsiteRow>, term: string): seq<WebsiteRow> {
    Filter(websites, w => WebsiteMatches(w, term))
  }

  /** The filter keeps, in order, exactly the matching rows, and an empty term keeps all. */
  lemma FilteredWebsitesSpec(websites: seq<WebsiteRow>, term: string)
    ensures IsSubsequence(FilteredWebsites(websites, term), websites)
    ensures forall k :: 0 <= k < |FilteredWebsites(websites, term)| ==> WebsiteMatches(FilteredWebsites(websites, term)[k], term)
    ensures forall i :: 0 <= i < |websites| && WebsiteMatches(websites[i], term) ==> websites[i] in FilteredWebsites(websites, term)
    ensures term == "" ==> FilteredWebsites(websites, term) == websites
  {
    FilterIsSubsequence(websites, w => WebsiteMatches(w, term));
    if term == "" {
      forall i | 0 <= i < |websites| ensures WebsiteMatches(websites[i], term) {
        ContainsEmpty(websites[i].domain);
      }
      FilterKeepsAll(websites, w => WebsiteMatches(w, term));
    }
  }

  /** What the "Hosting/VPS" cell shows. */
  datatype ProviderCell = HostingCell(provider: string, package: string) | VpsCell(provider: string) | NoProvider

  function ProviderDisplay(w: WebsiteRow): ProviderCell {
    if w.hosting.Some? then HostingCell(w.hosting.value.provider, w.hosting.value.package)
    else if w.vps.Some? then VpsCell(w.vps.value.provider)
    else NoProvider
  }

  /** Hosting wins over VPS, VPS is shown only without hosting, and "-" only without both. */
  lemma ProviderDisplayPrecedence(w: WebsiteRow)
    ensures w.hosting.Some? ==> ProviderDisplay(w) == HostingCell(w.hosting.value.provider, w.hosting.value.package)
    ensures ProviderDisplay(w).VpsCell? <==> w.hosting.None? && w.vps.Some?
    ensures ProviderDisplay(w).NoProvider? <==> w.hosting.None? && w.vps.None?
  {
  }

  /** The edit and delete entries of the row menu. */
  predicate OffersEditAndDelete(role: Auth.Role) {
    CanOfferAssetActions(role)
  }

  /** The finance role is offered neither entry; both admin roles are offered both. */
  lemma MenuByRole(role: Auth.Role)
    ensures OffersEditAndDelete(role) <==> role != Auth.Finance
  {
    AssetActionsByRole(role);
  }
}
