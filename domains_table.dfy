/**
 * `bikinlagi/app/dashboard/domains/components/domains-table.tsx`: the search filter and the
 * separate gating of the edit and delete entries.
 */
module DomainsTable {
  import opened Wrappers
  import opened Strings
  import opened Seqs
  import opened AssetTables
  import Auth

  /** A domain row as far as the table reads it. */
  datatype DomainRow = DomainRow(id: string, name: string, registrar: Option<string>, status: string)

  /** A row matches when its name or (non-null) registrar contains the term. */
  predicate DomainMatches(d: DomainRow, term: string) {
    ContainsIgnoringCase(d.name, term) || OptionalContains(d.registrar, term)
  }

  /** `filteredDomains`. */
  function FilteredDomains(domains: seq<DomainRow>, term: string): seq<DomainRow> {
    Filter(domains, d => DomainMatches(d, term))
  }

  /** The filter keeps, in order, exactly the matching rows, and an empty term keeps all. */
  lemma FilteredDomainsSpec(domains: seq<DomainRow>, term: string)
    ensures IsSubsequence(FilteredDomains(domains, term), domains)
    ensures forall k :: 0 <= k < |FilteredDomains(domains, term)| ==> DomainMatches(FilteredDomains(domains, term)[k], term)
    ensures forall i :: 0 <= i < |domains| && DomainMatches(domains[i], term) ==> domains[i] in FilteredDomains(domains, term)
    ensures term == "" ==> FilteredDomains(domains, term) == domains
  {
    FilterIsSubsequence(domains, d => DomainMatches(d, term));
    if term == "" {
      forall i | 0 <= i < |domains| ensures DomainMatches(domains[i], term) {
        ContainsEmpty(domains[i].name);
      }
      FilterKeepsAll(domains, d => DomainMatches(d, term));
    }
  }

  /** The edit entry: `canManage || canEditWhois`. */
  predicate OffersEdit(role: Auth.Role) {
    Auth.CanManageAssets(role) || Auth.CanUpdateWhois(role)
  }

  /** The delete entry: `canManage`. */
  predicate OffersDelete(role: Auth.Role) {
    Auth.CanManageAssets(role)
  }

  /** Since every role may update WHOIS data, every role is offered edit; only the two admin
      roles are offered delete, so delete is never offered without edit. */
  lemma DomainActionsByRole(role: Auth.Role)
    ensures OffersEdit(role)
    ensures OffersDelete(role) <==> role != Auth.Finance
    ensures OffersDelete(role) ==> OffersEdit(role)
  {
    Auth.PermissionTable(role);
  }

  /** `registrar || '-'`. */
  function RegistrarDisplay(d: DomainRow): (r: string)
    ensures Truthy(d.registrar) ==> r == d.registrar.value
    ensures r == "-" <==> !Truthy(d.registrar) || d.registrar.value == "-"
  {
    OrElse(d.registrar, "-")
  }
}
