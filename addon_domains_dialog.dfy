/**
 * `bikinlagi/components/dashboard/addon-domains-dialog.tsx`: the searchable list of addon
 * domains and what the dialog shows for a given list, search term and loading flag.
 */
module AddonDomainsDialog {
  import opened Wrappers
  import opened Strings
  import opened Seqs

  datatype AddonDomain = AddonDomain(id: string, name: string, cms: Option<string>)

  predicate NameMatches(d: AddonDomain, search: string) {
    ContainsIgnoringCase(d.name, search)
  }

  /** The `filtered` memo: names containing the search term, ignoring case. */
  function Filtered(domains: seq<AddonDomain>, search: string): seq<AddonDomain> {
    Filter(domains, d => NameMatches(d, search))
  }

  /** A rendered row: name, CMS (or "-"), and the id its delete button deletes, if it has one. */
  datatype AddonRow = AddonRow(name: string, cms: string, deleteTarget: Option<string>)

  /** The three bodies of the dialog. */
  datatype DialogBody =
    | Loading
    | NoAddonDomains
    | Listing(rows: seq<AddonRow>, notFound: bool)

  datatype DialogView = DialogView(title: string, body: DialogBody)

  function Row(d: AddonDomain, hasOnDelete: bool): AddonRow {
    AddonRow(d.name, OrElse(d.cms, "-"), if hasOnDelete then Some(d.id) else None)
  }

  /** The dialog for a list, a search term, the loading flag and whether an `onDelete`
      handler was passed. */
  function View(loading: bool, domains: seq<AddonDomain>, search: string, hasOnDelete: bool): DialogView {
    var title := "Addon Domain (" + NatToString(|domains|) + ")";
    var filtered := Filtered(domains, search);
    var body :=
      if loading then Loading
      else if |domains| == 0 then NoAddonDomains
      else Listing(seq(|filtered|, k requires 0 <= k < |filtered| => Row(filtered[k], hasOnDelete)), |filtered| == 0);
    DialogView(title, body)
  }

  /** The filter keeps, in order, exactly the domains whose name matches, and an empty search
      keeps all. */
  lemma FilteredSpec(domains: seq<AddonDomain>, search: string)
    ensures IsSubsequence(Filtered(domains, search), domains)
    ensures forall k :: 0 <= k < |Filtered(domains, search)| ==> NameMatches(Filtered(domains, search)[k], search)
    ensures forall i :: 0 <= i < |domains| && NameMatches(domains[i], search) ==> domains[i] in Filtered(domains, search)
    ensures search == "" ==> Filtered(domains, search) == domains
  {
    FilterIsSubsequence(domains, d => NameMatches(d, search));
    if search == "" {
      forall i | 0 <= i < |domains| ensures NameMatches(domains[i], search) {
        ContainsEmpty(domains[i].name);
      }
      FilterKeepsAll(domains, d => NameMatches(d, search));
    }
  }

  /** The title counts the whole list: it is the same for every search term and every loading
      state. */
  lemma TitleCountsWholeList(loading: bool, domains: seq<AddonDomain>, s1: string, s2: string, hasOnDelete: bool)
    ensures View(loading, domains, s1, hasOnDelete).title == View(false, domains, s2, hasOnDelete).title
    ensures View(loading, domains, s1, hasOnDelete).title == "Addon Domain (" + NatToString(|domains|) + ")"
  {
  }

  /** Loading wins; then an empty list; and "Tidak ditemukan" appears exactly when the list is
      not empty but nothing matches. Every listed row is one filtered domain, in order. */
  lemma BodyCases(loading: bool, domains: seq<AddonDomain>, search: string, hasOnDelete: bool)
    ensures View(loading, domains, search, hasOnDelete).body.Loading? <==> loading
    ensures View(loading, domains, search, hasOnDelete).body.NoAddonDomains? <==> !loading && |domains| == 0
    ensures (View(loading, domains, search, hasOnDelete).body.Listing? && View(loading, domains, search, hasOnDelete).body.notFound)
      <==> !loading && |domains| > 0 && Filtered(domains, search) == []
    ensures View(loading, domains, search, hasOnDelete).body.Listing? ==>
      |View(loading, domains, search, hasOnDelete).body.rows| == |Filtered(domains, search)|
    ensures View(loading, domains, search, hasOnDelete).body.Listing? ==>
      forall k :: 0 <= k < |View(loading, domains, search, hasOnDelete).body.rows| ==>
        && View(loading, domains, search, hasOnDelete).body.rows[k].name == Filtered(domains, search)[k].name
        && View(loading, domains, search, hasOnDelete).body.rows[k].cms == OrElse(Filtered(domains, search)[k].cms, "-")
        && NameMatches(Filtered(domains, search)[k], search)
  {
  }

  /** A row has a delete button exactly when a handler was passed, and it deletes that row's
      domain. */
  lemma DeleteButtonGating(loading: bool, domains: seq<AddonDomain>, search: string, hasOnDelete: bool, k: int)
    requires View(loading, domains, search, hasOnDelete).body.Listing?
    requires 0 <= k < |View(loading, domains, search, hasOnDelete).body.rows|
    ensures View(loading, domains, search, hasOnDelete).body.rows[k].deleteTarget.Some? <==> hasOnDelete
    ensures hasOnDelete ==> View(loading, domains, search, hasOnDelete).body.rows[k].deleteTarget == Some(Filtered(domains, search)[k].id)
  {
  }
}
