/**
 * `bikinlagi/app/dashboard/websites/components/website-form.tsx`: the form's defaults in new
 * and edit mode, which domains it offers, the provider option labels, the reset of the
 * provider on a type change, and how `onSubmit` builds the row it writes.
 */
module WebsiteForm {
  import opened Wrappers
  import opened Strings
  import opened Seqs

  /** The two values of the form's `providerType` enum. */
  datatype ProviderType = Shared | Vps

  /** The row being edited, as far as the form reads it. */
  datatype WebsiteRow = WebsiteRow(
    id: string, domain: string, cms: Option<string>, ipAddress: Option<string>,
    hostingId: Option<string>, vpsId: Option<string>,
    adminUsername: Option<string>, adminPassword: Option<string>)

  // ---------------------------------------------------------------------------
  // Defaults
  // ---------------------------------------------------------------------------

  /** `defaultProviderType`: in edit mode shared iff the row has a hosting id; new: shared. */
  function DefaultProviderType(initialData: Option<WebsiteRow>): ProviderType {
    if initialData.Some? then (if Truthy(initialData.value.hostingId) then Shared else Vps) else Shared
  }

  /** `defaultProviderId`: the hosting id, else the VPS id, else "". */
  function DefaultProviderId(initialData: Option<WebsiteRow>): string {
    if initialData.Some? then OrElse(initialData.value.hostingId, OrElse(initialData.value.vpsId, "")) else ""
  }

  /** The defaults agree with each other and with the row: a shared default carries the hosting
      id; a VPS default carries the VPS id, which is present only if the hosting id is not. */
  lemma DefaultsAgree(initialData: Option<WebsiteRow>)
    ensures initialData.None? ==> DefaultProviderType(initialData) == Shared && DefaultProviderId(initialData) == ""
    ensures initialData.Some? && Truthy(initialData.value.hostingId) ==>
      DefaultProviderType(initialData) == Shared && DefaultProviderId(initialData) == initialData.value.hostingId.value
    ensures initialData.Some? && !Truthy(initialData.value.hostingId) ==>
      DefaultProviderType(initialData) == Vps && DefaultProviderId(initialData) == OrElse(initialData.value.vpsId, "")
    ensures initialData.Some? && !Truthy(initialData.value.hostingId) && !Truthy(initialData.value.vpsId) ==>
      DefaultProviderId(initialData) == ""
  {
  }

  // ---------------------------------------------------------------------------
  // Domain options and provider labels
  // ---------------------------------------------------------------------------

  /** A fetched domain; `expiry` is its expiry instant, `None` when the date is missing. */
  datatype DomainChoice = DomainChoice(id: string, name: string, expiry: Option<int>)

  predicate StillValid(d: DomainChoice, today: int) {
    d.expiry.None? || d.expiry.value > today
  }

  /** The offered domains: no expiry date, or an expiry after `today`. */
  function DomainOptions(data: seq<DomainChoice>, today: int): seq<DomainChoice> {
    Filter(data, d => StillValid(d, today))
  }

  /** The options keep, in the fetched order, exactly the domains with no expiry date or one
      after today. */
  lemma DomainOptionsSpec(data: seq<DomainChoice>, today: int)
    ensures IsSubsequence(DomainOptions(data, today), data)
    ensures forall k :: 0 <= k < |DomainOptions(data, today)| ==>
      DomainOptions(data, today)[k].expiry.None? || DomainOptions(data, today)[k].expiry.value > today
    ensures forall i :: 0 <= i < |data| && (data[i].expiry.None? || data[i].expiry.value > today) ==> data[i] in DomainOptions(data, today)
    ensures forall i :: 0 <= i < |data| && data[i].expiry.Some? && data[i].expiry.value <= today ==>
      multiset(DomainOptions(data, today))[data[i]] == 0
  {
    FilterIsSubsequence(data, d => StillValid(d, today));
    forall i | 0 <= i < |data| && data[i].expiry.Some? && data[i].expiry.value <= today
      ensures multiset(DomainOptions(data, today))[data[i]] == 0
    {
      FilterCount(data, d => StillValid(d, today), data[i]);
    }
  }

  /** A hosting option: `${provider} – ${primary_domain || '-'}`. */
  function HostingLabel(provider: string, primaryDomain: Option<string>): string {
    provider + " – " + OrElse(primaryDomain, "-")
  }

  /** A VPS option: `${provider} – ${ip_address}`. */
  function VpsLabel(provider: string, ipAddress: string): string {
    provider + " – " + ipAddress
  }

  /** Both labels start with the provider and its separator; a hosting without primary domain
      ends in "-". */
  lemma LabelShape(provider: string, primaryDomain: Option<string>, ipAddress: string)
    ensures HostingLabel(provider, primaryDomain)[..|provider| + 3] == provider + " – "
    ensures VpsLabel(provider, ipAddress)[..|provider| + 3] == provider + " – "
    ensures !Truthy(primaryDomain) ==> HostingLabel(provider, primaryDomain) == provider + " – -"
  {
    assert (provider + " – " + OrElse(primaryDomain, "-"))[..|provider| + 3] == provider + " – ";
    assert (provider + " – " + ipAddress)[..|provider| + 3] == provider + " – ";
  }

  /** The provider field's label follows the type. */
  function ProviderFieldLabel(t: ProviderType): string {
    if t == Vps then "Pilih VPS" else "Pilih Hosting"
  }

  /** The label names the VPS list exactly for the VPS type and the hosting list otherwise, so
      the two types never share a label. */
  lemma ProviderFieldLabelCases(t: ProviderType)
    ensures ProviderFieldLabel(t) == "Pilih VPS" <==> t == Vps
    ensures ProviderFieldLabel(t) == "Pilih Hosting" <==> t == Shared
    ensures ProviderFieldLabel(Shared) != ProviderFieldLabel(Vps)
  {
  }

  // ---------------------------------------------------------------------------
  // Form state
  // ---------------------------------------------------------------------------

  /** The form's values, with the defaults of `useForm`. */
  class WebsiteFormState {
    var domain: string
    var cms: string
    var providerType: ProviderType
    var providerId: string
    var ipAddress: string
    var adminUsername: string
    var adminPassword: string

    constructor (initialData: Option<WebsiteRow>)
      ensures Values() == DefaultValues(initialData)
    {
      if initialData.Some? {
        var row := initialData.value;
        domain := row.domain;
        cms := OrElse(row.cms, "");
        ipAddress := OrElse(row.ipAddress, "");
        adminUsername := OrElse(row.adminUsername, "");
        adminPassword := OrElse(row.adminPassword, "");
      } else {
        domain := "";
        cms := "";
        ipAddress := "";
        adminUsername := "";
        adminPassword := "";
      }
      providerType := DefaultProviderType(initialData);
      providerId := DefaultProviderId(initialData);
    }

    /** The type select's change handler: the new type, and no provider chosen. */
    method ChangeProviderType(t: ProviderType)
      modifies this
      ensures providerType == t && providerId == ""
      ensures domain == old(domain) && cms == old(cms) && ipAddress == old(ipAddress)
      ensures adminUsername == old(adminUsername) && adminPassword == old(adminPassword)
    {
      providerType := t;
      providerId := "";
    }

    /** The submitted values. */
    function Values(): FormValues
      reads this
    {
      FormValues(domain, cms, providerType, providerId, ipAddress, adminUsername, adminPassword)
    }
  }

  /** A submit straight after a type change is refused with the provider message, so nothing
      is written until a provider of the new type is picked. */
  method ChangeThenSubmit(form: WebsiteFormState, t: ProviderType, initialData: Option<WebsiteRow>, user: Option<string>)
    returns (action: SubmitAction)
    modifies form
    ensures action.Refused? && FieldError("providerId", ProviderRequired) in action.errors
  {
    form.ChangeProviderType(t);
    action := Submit(form.Values(), initialData, user);
  }

  // ---------------------------------------------------------------------------
  // onSubmit
  // ---------------------------------------------------------------------------

  /** The form's values as `handleSubmit` passes them to the schema. */
  datatype FormValues = FormValues(
    domain: string, cms: string, providerType: ProviderType, providerId: string,
    ipAddress: string, adminUsername: string, adminPassword: string)

  /** `useForm`'s `defaultValues`: the row's fields or "", and the default provider. */
  function DefaultValues(initialData: Option<WebsiteRow>): FormValues {
    FormValues(
      if initialData.Some? then initialData.value.domain else "",
      if initialData.Some? then OrElse(initialData.value.cms, "") else "",
      DefaultProviderType(initialData), DefaultProviderId(initialData),
      if initialData.Some? then OrElse(initialData.value.ipAddress, "") else "",
      if initialData.Some? then OrElse(initialData.value.adminUsername, "") else "",
      if initialData.Some? then OrElse(initialData.value.adminPassword, "") else "")
  }

  // ---------------------------------------------------------------------------
  // Schema
  // ---------------------------------------------------------------------------

  const DomainRequired := "Domain harus dipilih"
  const ProviderRequired := "Provider harus dipilih"

  /** A message of the resolver, attached to a field. */
  datatype FieldError = FieldError(field: string, message: string)

  /** The `min(1)` rules of the schema, which `handleSubmit` checks before `onSubmit` runs; the
      other fields are optional and the type is one of the enum's two values. */
  function SchemaErrors(values: FormValues): (errors: seq<FieldError>)
    ensures errors == [] <==> values.domain != "" && values.providerId != ""
    ensures FieldError("domain", DomainRequired) in errors <==> values.domain == ""
    ensures FieldError("providerId", ProviderRequired) in errors <==> values.providerId == ""
  {
    (if values.domain == "" then [FieldError("domain", DomainRequired)] else [])
    + (if values.providerId == "" then [FieldError("providerId", ProviderRequired)] else [])
  }

  /** A new form cannot be submitted untouched: both the domain and the provider are missing. */
  lemma NewFormIsRefused()
    ensures SchemaErrors(DefaultValues(None)) == [FieldError("domain", DomainRequired), FieldError("providerId", ProviderRequired)]
  {
  }

  /** Editing a row linked to neither a hosting nor a VPS starts with no provider, so its form
      is refused until one is picked; a row linked to either starts with that id. */
  lemma EditDefaultsAndProvider(row: WebsiteRow)
    ensures !Truthy(row.hostingId) && !Truthy(row.vpsId) ==>
      FieldError("providerId", ProviderRequired) in SchemaErrors(DefaultValues(Some(row)))
    ensures Truthy(row.hostingId) || Truthy(row.vpsId) ==>
      FieldError("providerId", ProviderRequired) !in SchemaErrors(DefaultValues(Some(row)))
  {
  }

  /** The characters `String.prototype.trim` removes, as far as ASCII goes. */
  predicate IsSpace(c: char) {
    c == ' ' || c == '\t' || c == '\n' || c == '\r' || c == '\U{B}' || c == '\U{C}'
  }

  /** `trim() !== ''`: some character is not white space. */
  predicate HasContent(s: string) {
    exists i :: 0 <= i < |s| && !IsSpace(s[i])
  }

  /** `pId`: the id as typed (not trimmed) when it has content, otherwise null. */
  function ProviderIdOrNull(providerId: string): Option<string> {
    if providerId != "" && HasContent(providerId) then Some(providerId) else None
  }

  /** The row `onSubmit` writes (`insertData`). */
  datatype WebsiteRecord = WebsiteRecord(
    domain: string, cms: Option<string>, ipAddress: Option<string>,
    adminUsername: Option<string>, adminPassword: Option<string>, status: string,
    hostingId: Option<string>, vpsId: Option<string>, createdBy: Option<string>)

  /** `insertData` before `created_by`. */
  function InsertData(values: FormValues): WebsiteRecord {
    var pId := ProviderIdOrNull(values.providerId);
    WebsiteRecord(
      values.domain, OrNull(Some(values.cms)), OrNull(Some(values.ipAddress)),
      OrNull(Some(values.adminUsername)), OrNull(Some(values.adminPassword)), "active",
      if values.providerType == Shared then pId else None,
      if values.providerType == Vps then pId else None,
      None)
  }

  /** The row carries at most one provider, the one of its type, and exactly when an id with
      content was chosen; empty optional fields are written as null; the status is always
      active. */
  lemma InsertDataSpec(values: FormValues)
    ensures !(InsertData(values).hostingId.Some? && InsertData(values).vpsId.Some?)
    ensures values.providerType == Shared ==> InsertData(values).vpsId.None? && InsertData(values).hostingId == ProviderIdOrNull(values.providerId)
    ensures values.providerType == Vps ==> InsertData(values).hostingId.None? && InsertData(values).vpsId == ProviderIdOrNull(values.providerId)
    ensures (InsertData(values).hostingId.Some? || InsertData(values).vpsId.Some?) <==> HasContent(values.providerId)
    ensures values.cms == "" <==> InsertData(values).cms.None?
    ensures values.ipAddress == "" <==> InsertData(values).ipAddress.None?
    ensures values.adminUsername == "" <==> InsertData(values).adminUsername.None?
    ensures values.adminPassword == "" <==> InsertData(values).adminPassword.None?
    ensures InsertData(values).status == "active"
  {
  }

  /** A blank or white-space-only id writes no provider; an id with content is written as
      typed. */
  lemma BlankProviderIsNull(providerId: string)
    ensures (forall i :: 0 <= i < |providerId| ==> IsSpace(providerId[i])) ==> ProviderIdOrNull(providerId).None?
    ensures HasContent(providerId) ==> ProviderIdOrNull(providerId) == Some(providerId)
    ensures ProviderIdOrNull("   ").None?
  {
    assert !HasContent("   ") by {
      forall i | 0 <= i < 3 ensures IsSpace("   "[i]) {
      }
    }
  }

  /** What `onSubmit` asks of the database. */
  datatype SubmitAction =
    | Refused(errors: seq<FieldError>)
    | NotAuthenticated
    | UpdateWebsite(id: string, owner: string, data: WebsiteRecord)
    | InsertWebsite(data: WebsiteRecord)

  /** `form.handleSubmit(onSubmit)`: values that break the schema are refused with its messages
      and `onSubmit` does not run. Otherwise `insertData` is built field by field, the provider
      ids by type; without a user nothing is written; in edit mode the row with the same id
      and the same owner is updated and `created_by` is left alone, otherwise a row owned by
      the user is inserted. */
  method Submit(values: FormValues, initialData: Option<WebsiteRow>, user: Option<string>) returns (action: SubmitAction)
    ensures action.Refused? <==> SchemaErrors(values) != []
    ensures action.Refused? ==> action.errors == SchemaErrors(values)
    ensures SchemaErrors(values) == [] ==> (user.None? <==> action == NotAuthenticated)
    ensures SchemaErrors(values) == [] && user.Some? && initialData.Some? ==>
      action == UpdateWebsite(initialData.value.id, user.value, InsertData(values))
    ensures SchemaErrors(values) == [] && user.Some? && initialData.None? ==>
      action == InsertWebsite(InsertData(values).(createdBy := user))
    ensures action.UpdateWebsite? ==> action.data.createdBy.None?
    ensures action.InsertWebsite? ==> action.data.createdBy == user && user.Some?
  {
    var errors := SchemaErrors(values);
    if errors != [] {
      action := Refused(errors);
      return;
    }
    var insertData := WebsiteRecord(
      values.domain, OrNull(Some(values.cms)), OrNull(Some(values.ipAddress)),
      OrNull(Some(values.adminUsername)), OrNull(Some(values.adminPassword)), "active",
      None, None, None);
    var pId := ProviderIdOrNull(values.providerId);
    if values.providerType == Shared {
      insertData := insertData.(hostingId := pId);
      insertData := insertData.(vpsId := None);
    } else {
      insertData := insertData.(vpsId := pId);
      insertData := insertData.(hostingId := None);
    }
    if user.None? {
      action := NotAuthenticated;
      return;
    }
    if initialData.Some? {
      action := UpdateWebsite(initialData.value.id, user.value, insertData);
    } else {
      insertData := insertData.(createdBy := user);
      action := InsertWebsite(insertData);
    }
  }
}
