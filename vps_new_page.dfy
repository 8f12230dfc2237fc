/**
 * `bikinlagi/app/dashboard/vps/new/page.tsx`: which domains the new-VPS form offers, and how
 * submitting it writes the VPS row and its domain relations. The three reads and the two
 * inserts are not modelled; their answers are parameters and the writes are returned.
 */
module VpsNewPage {
  import opened Wrappers
  import opened Strings
  import opened Seqs
  import VpsForm

  /** An `{ domain_id }` row of `domain_hosting` or `domain_vps`. */
  datatype Assignment = Assignment(domainId: string)

  /** The ids in both assignment tables (`used`); a failed read gives no rows. */
  function UsedIds(assignedHosting: Option<seq<Assignment>>, assignedVps: Option<seq<Assignment>>): (used: set<string>)
    ensures forall a :: a in assignedHosting.GetOr([]) ==> a.domainId in used
    ensures forall a :: a in assignedVps.GetOr([]) ==> a.domainId in used
    ensures forall id :: id in used ==>
      (exists a :: a in assignedHosting.GetOr([]) && a.domainId == id) || (exists a :: a in assignedVps.GetOr([]) && a.domainId == id)
  {
    (set a | a in assignedHosting.GetOr([]) :: a.domainId) + (set a | a in assignedVps.GetOr([]) :: a.domainId)
  }

  predicate Unassigned(d: VpsForm.DomainOption, used: set<string>) {
    d.id !in used
  }

  /** The domains the form offers: the fetched ones (none if the read failed) that neither
      table assigns. */
  function OfferedDomains(list: Option<seq<VpsForm.DomainOption>>, assignedHosting: Option<seq<Assignment>>, assignedVps: Option<seq<Assignment>>): seq<VpsForm.DomainOption> {
    var used := UsedIds(assignedHosting, assignedVps);
    Filter(list.GetOr([]), d => Unassigned(d, used))
  }

  /** A domain is offered exactly when it was fetched and no hosting or VPS relation names its
      id; the offered list keeps the fetched order. */
  lemma OfferedDomainsSpec(list: seq<VpsForm.DomainOption>, assignedHosting: seq<Assignment>, assignedVps: seq<Assignment>)
    ensures IsSubsequence(OfferedDomains(Some(list), Some(assignedHosting), Some(assignedVps)), list)
    ensures forall k :: 0 <= k < |OfferedDomains(Some(list), Some(assignedHosting), Some(assignedVps))| ==>
      var d := OfferedDomains(Some(list), Some(assignedHosting), Some(assignedVps))[k];
      (forall a :: a in assignedHosting ==> a.domainId != d.id) && (forall a :: a in assignedVps ==> a.domainId != d.id)
    ensures forall i :: (0 <= i < |list| && (forall a :: a in assignedHosting ==> a.domainId != list[i].id)
      && (forall a :: a in assignedVps ==> a.domainId != list[i].id)
      ==> list[i] in OfferedDomains(Some(list), Some(assignedHosting), Some(assignedVps)))
  {
    var used := UsedIds(Some(assignedHosting), Some(assignedVps));
    FilterIsSubsequence(list, d => Unassigned(d, used));
  }

  /** A `{ domain_id, vps_id }` row of `domain_vps`. */
  datatype Relation = Relation(domainId: string, vpsId: string)

  /** `relasi`: one row per selected domain. */
  function RelationRows(associatedDomains: seq<string>, vpsId: string): (rows: seq<Relation>)
    ensures |rows| == |associatedDomains|
    ensures forall i :: 0 <= i < |rows| ==> rows[i] == Relation(associatedDomains[i], vpsId)
  {
    seq(|associatedDomains|, i requires 0 <= i < |associatedDomains| => Relation(associatedDomains[i], vpsId))
  }

  /** The submitted form; the renewal cost is kept as typed, since parsing it as a float is
      not modelled. */
  datatype NewVpsForm = NewVpsForm(
    provider: string, ipAddress: string, rootUser: Option<string>, rootPassword: Option<string>,
    expiryDate: string, renewalCost: Option<string>, associatedDomains: seq<string>)

  /** The inserted `vps` row. */
  datatype NewVpsRow = NewVpsRow(
    provider: string, ipAddress: string, rootUser: Option<string>, rootPassword: Option<string>,
    expiryDate: string, renewalCost: Option<string>, status: string, createdBy: Option<string>)

  function NewVpsRowOf(form: NewVpsForm, user: Option<string>): NewVpsRow {
    NewVpsRow(form.provider, form.ipAddress, form.rootUser, form.rootPassword, form.expiryDate,
      if Truthy(form.renewalCost) then form.renewalCost else None, "active", user)
  }

  /** The answer to the `vps` insert: success with the id read back from it, if any, or an error. */
  datatype VpsInsertResult = VpsInserted(returnedId: Option<string>) | VpsInsertFailed(message: Option<string>)

  /** The answer to the relation insert. */
  datatype RelationInsertResult = RelationsInserted | RelationsFailed(message: Option<string>)

  datatype Write = InsertVps(row: NewVpsRow) | InsertRelations(rows: seq<Relation>) | Navigate(path: string)

  datatype SubmitOutcome = Saved | Failed(toast: string)

  const SubmitFailedDefault := "Gagal menambah VPS"

  /** `handleSubmit`. */
  method Submit(form: NewVpsForm, user: Option<string>, inserted: VpsInsertResult, related: RelationInsertResult)
    returns (outcome: SubmitOutcome, writes: seq<Write>)
    ensures |writes| >= 1 && writes[0] == InsertVps(NewVpsRowOf(form, user))
    ensures NewVpsRowOf(form, user).status == "active"
    ensures inserted.VpsInsertFailed? ==> writes == [writes[0]] && outcome == Failed(OrElse(inserted.message, SubmitFailedDefault))
    ensures inserted.VpsInserted? && !Truthy(inserted.returnedId) ==>
      writes == [writes[0], Navigate("/dashboard/vps")] && outcome == Saved
    ensures inserted.VpsInserted? && Truthy(inserted.returnedId) ==>
      && |writes| >= 2
      && writes[1] == InsertRelations(RelationRows(form.associatedDomains, inserted.returnedId.value))
      && (related.RelationsInserted? ==> writes == writes[..2] + [Navigate("/dashboard/vps")] && outcome == Saved)
      && (related.RelationsFailed? ==> |writes| == 2 && outcome == Failed(OrElse(related.message, SubmitFailedDefault)))
    // relation rows are written only for a VPS whose id is known
    ensures forall k :: 0 <= k < |writes| && writes[k].InsertRelations? ==>
      inserted.VpsInserted? && Truthy(inserted.returnedId) && writes[k].rows == RelationRows(form.associatedDomains, inserted.returnedId.value)
  {
    writes := [InsertVps(NewVpsRowOf(form, user))];
    if inserted.VpsInsertFailed? {
      outcome := Failed(OrElse(inserted.message, SubmitFailedDefault));
      return;
    }
    var vpsId := inserted.returnedId;
    if Truthy(vpsId) {
      var relasi := RelationRows(form.associatedDomains, vpsId.value);
      writes := writes + [InsertRelations(relasi)];
      if related.RelationsFailed? {
        outcome := Failed(OrElse(related.message, SubmitFailedDefault));
        return;
      }
    }
    writes := writes + [Navigate("/dashboard/vps")];
    outcome := Saved;
  }
}
