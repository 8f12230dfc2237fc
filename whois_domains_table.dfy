/**
 * `app/dashboard/domains/components/domains-table.tsx`: the status colour of a row, the date and
 * nameserver expressions of the WHOIS modal, and the modal's state as `handleDomainClick` and
 * `closeModal` change it.
 */
module WhoisDomainsTable {
  import opened Wrappers
  import opened Strings
  import opened Seqs
  import opened WhoisActions

  const GreenClass := "bg-green-100 text-green-800"
  const RedClass := "bg-red-100 text-red-800"
  const YellowClass := "bg-yellow-100 text-yellow-800"
  const GrayClass := "bg-gray-100 text-gray-800"

  /** `getStatusColor`, over the stored `domain_status` text. */
  function StatusColor(status: string): string {
    if status == "active" then GreenClass
    else if status == "expired" then RedClass
    else if status == "suspended" then YellowClass
    else GrayClass
  }

  /** The three known statuses get three different colours, every other text gets gray, and so
      every status `createDomain` can store is coloured. */
  lemma StatusColorCases(status: string)
    ensures StatusColor("active") == GreenClass
    ensures StatusColor("expired") == RedClass
    ensures StatusColor("suspended") == YellowClass
    ensures status != "active" && status != "expired" && status != "suspended" ==> StatusColor(status) == GrayClass
    ensures StatusColor(status) != GrayClass <==> status in {"active", "expired", "suspended"}
  {
  }

  /** Every status the actions derive maps to a colour other than gray. */
  lemma DerivedStatusIsColored(m: WhoisMap)
    ensures StatusColor(StatusName(ColumnsOf(m).domainStatus)) != GrayClass
  {
    StatusColorCases(StatusName(ColumnsOf(m).domainStatus));
  }

  /** A date line of the modal: the part before the first space when the field is truthy,
      otherwise "N/A". */
  function DateDisplay(v: Option<string>): string {
    if Truthy(v) then BeforeSpace(v.value) else "N/A"
  }

  /** The modal shows the same date as the stored column whenever the column is set, and
      "N/A" when the field is missing or empty. A value starting with a space is the one case
      where the two differ: the column is null and the line is empty. */
  lemma DateDisplayAgreesWithColumn(v: Option<string>)
    ensures CutDate(v).Some? ==> DateDisplay(v) == CutDate(v).value
    ensures !Truthy(v) ==> DateDisplay(v) == "N/A" && CutDate(v).None?
    ensures Truthy(v) && CutDate(v).None? ==> DateDisplay(v) == "" && v.value[0] == ' '
  {
    if Truthy(v) && CutDate(v).None? {
      assert BeforeSpace(v.value) == "";
    }
  }

  /** The "Nameservers:" line: the truthy slots joined by ", ", or "N/A". */
  function NameserverSummary(m: WhoisMap): string {
    var joined := Join(Filter(NameserverSlots(m), NonEmpty), ", ");
    if joined == "" then "N/A" else joined
  }

  /** The summary is "N/A" exactly when the stored nameserver list is empty, and otherwise that
      same list joined by ", ". */
  lemma NameserverSummaryCases(m: WhoisMap)
    ensures NameserverSummary(m) == "N/A" <==> Nameservers(m) == [] || Join(Nameservers(m), ", ") == "N/A"
    ensures Nameservers(m) == [] ==> NameserverSummary(m) == "N/A"
    ensures Nameservers(m) != [] ==> NameserverSummary(m) == Join(Nameservers(m), ", ")
  {
    NameserverShape(m);
    JoinEmptyIff(Nameservers(m), ", ");
  }

  /** A row of the table as far as the modal uses it. */
  datatype DomainRow = DomainRow(id: string, name: string, note: Option<string>, whoisData: Option<WhoisMap>)

  /** What `fetchDomainWhois` answers: success with data, failure with an optional message, or
      a throw. */
  datatype FetchResult = Fetched(data: WhoisMap) | NotFetched(error: Option<string>) | FetchThrew

  const FetchFailedDefault := "Failed to fetch WHOIS data"
  const FetchThrewMessage := "An error occurred while fetching domain data"

  /** The five state hooks of the table. */
  class DomainModal {
    var selectedDomain: Option<string>
    var whoisData: Option<WhoisMap>
    var domainDetails: Option<DomainRow>
    var loading: bool
    var error: Option<string>

    /** The modal is rendered while `selectedDomain` is truthy. */
    predicate IsOpen()
      reads this
    {
      Truthy(selectedDomain)
    }

    /** The initial state of the hooks. */
    constructor ()
      ensures selectedDomain == None && whoisData == None && domainDetails == None
      ensures !loading && error == None
      ensures !IsOpen()
    {
      selectedDomain := None;
      whoisData := None;
      domainDetails := None;
      loading := false;
      error := None;
    }

    /** The synchronous part of `handleDomainClick`. A row that already carries WHOIS data is
        shown at once; otherwise loading starts and the name to look up is returned. */
    method ClickDomain(domain: DomainRow) returns (lookup: Option<string>)
      modifies this
      ensures selectedDomain == Some(domain.name) && domainDetails == Some(domain) && error == None
      ensures domain.whoisData.Some? ==> whoisData == domain.whoisData && !loading && lookup == None
      ensures domain.whoisData.None? ==> whoisData == None && loading && lookup == Some(domain.name)
      ensures domain.name != "" ==> IsOpen()
    {
      selectedDomain := Some(domain.name);
      loading := true;
      error := None;
      whoisData := None;
      domainDetails := Some(domain);
      if domain.whoisData.Some? {
        whoisData := domain.whoisData;
        loading := false;
        lookup := None;
        return;
      }
      lookup := Some(domain.name);
    }

    /** The part of `handleDomainClick` after the lookup answers: the data or an error
        message, and loading ends in every case. */
    method ReceiveWhois(result: FetchResult)
      modifies this
      ensures selectedDomain == old(selectedDomain) && domainDetails == old(domainDetails)
      ensures !loading
      ensures result.Fetched? ==> whoisData == Some(result.data) && error == old(error)
      ensures result.NotFetched? ==> error == Some(OrElse(result.error, FetchFailedDefault)) && whoisData == old(whoisData)
      ensures result.FetchThrew? ==> error == Some(FetchThrewMessage) && whoisData == old(whoisData)
    {
      match result {
        case Fetched(data) =>
          whoisData := Some(data);
        case NotFetched(message) =>
          error := Some(OrElse(message, FetchFailedDefault));
        case FetchThrew =>
          error := Some(FetchThrewMessage);
      }
      loading := false;
    }

    /** `closeModal`: everything but `loading` is cleared. */
    method CloseModal()
      modifies this
      ensures selectedDomain == None && whoisData == None && domainDetails == None && error == None
      ensures loading == old(loading)
      ensures !IsOpen()
    {
      selectedDomain := None;
      whoisData := None;
      domainDetails := None;
      error := None;
    }
  }

  /** A click followed by the answer ends with loading off and either the data or an error on
      display, never both fresh: a click clears the error, and only a failed lookup sets it. */
  method ClickThenAnswer(modal: DomainModal, domain: DomainRow, result: FetchResult)
    modifies modal
    ensures !modal.loading
    ensures modal.selectedDomain == Some(domain.name)
    ensures domain.whoisData.Some? ==> modal.whoisData == domain.whoisData && modal.error == None
    ensures domain.whoisData.None? && result.Fetched? ==> modal.whoisData == Some(result.data) && modal.error == None
    ensures domain.whoisData.None? && !result.Fetched? ==> modal.whoisData == None && modal.error.Some?
  {
    var lookup := modal.ClickDomain(domain);
    if lookup.Some? {
      modal.ReceiveWhois(result);
    }
  }
}
