/**
 * `bikinlagi/app/dashboard/vps/components/vps-form.tsx`: the domain picker of the VPS form
 * (its search filter, the checkbox update and the summary label) and the form's
 * required-field rules.
 */
module VpsForm {
  import opened Wrappers
  import opened Strings
  import opened Seqs

  /** A domain the picker offers. */
  datatype DomainOption = DomainOption(id: string, name: string)

  predicate NameMatches(d: DomainOption, term: string) {
    ContainsIgnoringCase(d.name, term)
  }

  /** `filteredDomains`. */
  function FilteredDomains(domainList: seq<DomainOption>, term: string): seq<DomainOption> {
    Filter(domainList, d => NameMatches(d, term))
  }

  /** The picker keeps, in order, exactly the domains whose name matches; an empty term
      keeps all. */
  lemma FilteredDomainsSpec(domainList: seq<DomainOption>, term: string)
    ensures IsSubsequence(FilteredDomains(domainList, term), domainList)
    ensures forall k :: 0 <= k < |FilteredDomains(domainList, term)| ==> NameMatches(FilteredDomains(domainList, term)[k], term)
    ensures forall i :: 0 <= i < |domainList| && NameMatches(domainList[i], term) ==> domainList[i] in FilteredDomains(domainList, term)
    ensures term == "" ==> FilteredDomains(domainList, term) == domainList
  {
    FilterIsSubsequence(domainList, d => NameMatches(d, term));
    if term == "" {
      forall i | 0 <= i < |domainList| ensures NameMatches(domainList[i], term) {
        ContainsEmpty(domainList[i].name);
      }
      FilterKeepsAll(domainList, d => NameMatches(d, term));
    }
  }

  /** The selection after a checkbox change: checking appends the id, unchecking removes
      every occurrence of it. */
  function Toggle(selected: seq<string>, id: string, checked: bool): seq<string> {
    if checked then selected + [id] else Filter(selected, x => x != id)
  }

  /** Checking puts the id last and keeps the others in front, in order. */
  lemma CheckAppends(selected: seq<string>, id: string)
    ensures Toggle(selected, id, true)[..|selected|] == selected
    ensures Toggle(selected, id, true)[|selected|] == id
  {
  }

  /** Unchecking removes the id entirely, keeps the others in order and keeps how often each
      of them occurs. */
  lemma UncheckRemoves(selected: seq<string>, id: string)
    ensures id !in Toggle(selected, id, false)
    ensures IsSubsequence(Toggle(selected, id, false), selected)
    ensures forall x :: x != id ==> multiset(Toggle(selected, id, false))[x] == multiset(selected)[x]
  {
    FilterIsSubsequence(selected, x => x != id);
    forall x | x != id
      ensures multiset(Toggle(selected, id, false))[x] == multiset(selected)[x]
    {
      FilterCount(selected, y => y != id, x);
    }
  }

  /** Checking an unselected id and then unchecking it gives back the original selection. */
  lemma CheckThenUncheck(selected: seq<string>, id: string)
    requires id !in selected
    ensures Toggle(Toggle(selected, id, true), id, false) == selected
  {
    FilterAppend(selected, [id], x => x != id);
    FilterKeepsAll(selected, x => x != id);
    assert Filter([id], x => x != id) == [];
  }

  /** `domainList.find(d => d.id === id)?.name`: the name of the first domain with that id. */
  function FindName(domainList: seq<DomainOption>, id: string): (r: Option<string>)
    ensures r.None? <==> forall k :: 0 <= k < |domainList| ==> domainList[k].id != id
    ensures r.Some? ==> exists k :: (0 <= k < |domainList| && domainList[k].id == id && domainList[k].name == r.value
      && forall j :: 0 <= j < k ==> domainList[j].id != id)
  {
    if domainList == [] then None
    else if domainList[0].id == id then Some(domainList[0].name)
    else
      var rest := FindName(domainList[1..], id);
      if rest.Some? then
        ghost var k :| 0 <= k < |domainList| - 1 && domainList[1..][k].id == id && domainList[1..][k].name == rest.value
          && forall j :: 0 <= j < k ==> domainList[1..][j].id != id;
        assert domainList[k + 1].id == id && domainList[k + 1].name == rest.value;
        assert forall j :: 0 <= j < k + 1 ==> domainList[j].id != id by {
          forall j | 0 <= j < k + 1 ensures domainList[j].id != id {
            if j > 0 {
              assert domainList[j] == domainList[1..][j - 1];
            }
          }
        }
        rest
      else
        assert forall k :: 0 <= k < |domainList| ==> domainList[k].id != id by {
          forall k | 0 <= k < |domainList| ensures domainList[k].id != id {
            if k > 0 {
              assert domainList[k] == domainList[1..][k - 1];
            }
          }
        }
        rest
  }

  /** Each selected id's name, "" when no domain has that id. */
  function LookedUpNames(selected: seq<string>, domainList: seq<DomainOption>): (r: seq<string>)
    ensures |r| == |selected|
    ensures forall i :: 0 <= i < |selected| ==> r[i] == FindName(domainList, selected[i]).GetOr("")
  {
    seq(|selected|, i requires 0 <= i < |selected| => FindName(domainList, selected[i]).GetOr(""))
  }

  predicate NonEmptyName(s: string) {
    s != ""
  }

  /** The names of the label: `.filter(Boolean)` drops both unmatched ids and empty names. */
  function ResolvedNames(selected: seq<string>, domainList: seq<DomainOption>): seq<string> {
    Filter(LookedUpNames(selected, domainList), NonEmptyName)
  }

  /** The picker's button text. */
  function SelectedLabel(selected: seq<string>, domainList: seq<DomainOption>): string {
    var names := ResolvedNames(selected, domainList);
    if |selected| == 0 then "Pilih Domain"
    else if |names| <= 2 then Join(names, ", ")
    else names[0] + ", +" + NatToString(|names| - 1) + " lainnya"
  }

  /** The label by number of resolved names. */
  lemma SelectedLabelCases(selected: seq<string>, domainList: seq<DomainOption>)
    ensures selected == [] ==> SelectedLabel(selected, domainList) == "Pilih Domain"
    ensures selected != [] && |ResolvedNames(selected, domainList)| == 1 ==>
      SelectedLabel(selected, domainList) == ResolvedNames(selected, domainList)[0]
    ensures selected != [] && |ResolvedNames(selected, domainList)| == 2 ==>
      SelectedLabel(selected, domainList) == ResolvedNames(selected, domainList)[0] + ", " + ResolvedNames(selected, domainList)[1]
    ensures selected != [] && |ResolvedNames(selected, domainList)| > 2 ==>
      SelectedLabel(selected, domainList) ==
        ResolvedNames(selected, domainList)[0] + ", +" + NatToString(|ResolvedNames(selected, domainList)| - 1) + " lainnya"
    ensures selected != [] && ResolvedNames(selected, domainList) == [] ==> SelectedLabel(selected, domainList) == ""
  {
    var names := ResolvedNames(selected, domainList);
    if selected != [] && |names| == 2 {
      assert names[1..] == [names[1]];
      assert Join(names[1..], ", ") == names[1];
    }
  }

  /** Selecting an id no domain has changes nothing in the label's names. */
  lemma UnknownIdDropped(selected: seq<string>, domainList: seq<DomainOption>, unknown: string)
    requires forall k :: 0 <= k < |domainList| ==> domainList[k].id != unknown
    ensures ResolvedNames(selected + [unknown], domainList) == ResolvedNames(selected, domainList)
  {
    assert LookedUpNames(selected + [unknown], domainList) == LookedUpNames(selected, domainList) + [""];
    FilterAppend(LookedUpNames(selected, domainList), [""], NonEmptyName);
    assert Filter([""], NonEmptyName) == [];
  }

  /** The resolved names are, in selection order, the names of the selected ids that some
      domain has, so there are never more of them than selected ids. */
  lemma ResolvedNamesShape(selected: seq<string>, domainList: seq<DomainOption>)
    ensures |ResolvedNames(selected, domainList)| <= |selected|
    ensures IsSubsequence(ResolvedNames(selected, domainList), LookedUpNames(selected, domainList))
    ensures forall k :: 0 <= k < |ResolvedNames(selected, domainList)| ==>
      exists j :: 0 <= j < |domainList| && domainList[j].name == ResolvedNames(selected, domainList)[k] && domainList[j].id in selected
  {
    var looked := LookedUpNames(selected, domainList);
    FilterIsSubsequence(looked, NonEmptyName);
    forall k | 0 <= k < |ResolvedNames(selected, domainList)|
      ensures exists j :: 0 <= j < |domainList| && domainList[j].name == ResolvedNames(selected, domainList)[k] && domainList[j].id in selected
    {
      var n := ResolvedNames(selected, domainList)[k];
      assert n in looked && n != "";
      var i :| 0 <= i < |looked| && looked[i] == n;
      assert FindName(domainList, selected[i]).Some?;
    }
  }

  // ---------------------------------------------------------------------------
  // Required fields
  // ---------------------------------------------------------------------------

  /** The string fields as the inputs hold them, and the selection, which is missing until
      the picker is first used. */
  datatype VpsFormInput = VpsFormInput(
    provider: string, ipAddress: string, expiryDate: string, renewalCost: string,
    associatedDomains: Option<seq<string>>)

  /** A message under a field; `None` is the validation library's own text for a missing
      value, which is not modelled. */
  datatype FieldError = FieldError(field: string, message: Option<string>)

  function RequiredText(field: string, value: string, message: string): seq<FieldError> {
    if |value| < 1 then [FieldError(field, Some(message))] else []
  }

  function DomainsError(selection: Option<seq<string>>): seq<FieldError> {
    match selection
    case None => [FieldError("associatedDomains", None)]
    case Some(ids) => if |ids| < 1 then [FieldError("associatedDomains", Some("Pilih minimal satu domain"))] else []
  }

  /** The errors of the schema's `min(1)` rules, in field order. */
  function FormErrors(f: VpsFormInput): seq<FieldError> {
    RequiredText("provider", f.provider, "Provider harus diisi")
    + RequiredText("ip_address", f.ipAddress, "IP Address harus diisi")
    + RequiredText("expiry_date", f.expiryDate, "Tanggal kedaluwarsa harus diisi")
    + RequiredText("renewal_cost", f.renewalCost, "Biaya perpanjangan harus diisi")
    + DomainsError(f.associatedDomains)
  }

  /** The form submits exactly when the four text fields are filled in and at least one domain
      is selected. */
  lemma SubmitNeedsADomain(f: VpsFormInput)
    ensures FormErrors(f) == [] <==>
      f.provider != "" && f.ipAddress != "" && f.expiryDate != "" && f.renewalCost != ""
      && f.associatedDomains.Some? && |f.associatedDomains.value| >= 1
    ensures f.associatedDomains == Some([]) ==>
      FieldError("associatedDomains", Some("Pilih minimal satu domain")) in FormErrors(f)
  {
    if f.associatedDomains == Some([]) {
      var e := FormErrors(f);
      assert e[|e| - 1] == FieldError("associatedDomains", Some("Pilih minimal satu domain"));
    }
  }
}
