/**
 * `app/dashboard/domains/actions.ts`: turning a WHOIS lookup (a map from field names such as
 * "Status" or "Nameserver 1" to strings) into the columns of a domain row, and the two server
 * actions that write those columns: `createDomain` (insert) and `updateDomainWhois` (refresh).
 *
 * The WHOIS HTTP call, the authentication call and the database calls are not modelled: their
 * answers are parameters, and what the actions ask of them is returned as a list of effects.
 */
module WhoisActions {
  import opened Wrappers
  import opened Strings
  import opened Seqs

  /** The `data` object of a WHOIS answer. */
  type WhoisMap = map<string, string>

  /** `whoisData[key]`. */
  function Field(m: WhoisMap, key: string): Option<string> {
    if key in m then Some(m[key]) else None
  }

  // ---------------------------------------------------------------------------
  // Derived status
  // ---------------------------------------------------------------------------

  /** The coarse lifecycle status stored in `domain_status`. */
  datatype DomainStatus = Active | Expired | Suspended

  /** The column value of a status. */
  function StatusName(s: DomainStatus): string {
    match s
    case Active => "active"
    case Expired => "expired"
    case Suspended => "suspended"
  }

  /** The lower-cased WHOIS status text; a missing status reads as "". */
  function RawStatus(status: Option<string>): string {
    Lower(status.GetOr(""))
  }

  /** The status rule: "expire" or "redemption" anywhere means expired, checked first; then
      "suspended" means suspended; anything else is active. */
  function DeriveStatus(status: Option<string>): DomainStatus {
    var raw := RawStatus(status);
    if Contains(raw, "expire") || Contains(raw, "redemption") then Expired
    else if Contains(raw, "suspended") then Suspended
    else Active
  }

  // ---------------------------------------------------------------------------
  // Nameservers
  // ---------------------------------------------------------------------------

  /** The key `Nameserver ${i}`. */
  function NameserverKey(i: int): string
    requires 1 <= i <= 4
  {
    "Nameserver " + [('0' as int + i) as char]
  }

  /** The four nameserver slots in key order; an absent slot reads as "" (both are falsy). */
  function NameserverSlots(m: WhoisMap): (r: seq<string>)
    ensures |r| == 4
    ensures forall j :: 0 <= j < 4 ==> r[j] == Field(m, NameserverKey(j + 1)).GetOr("")
  {
    seq(4, j requires 0 <= j < 4 => Field(m, NameserverKey(j + 1)).GetOr(""))
  }

  predicate NonEmpty(s: string) {
    s != ""
  }

  /** The `nameservers` column: the truthy slots, left-packed, in key order. */
  function Nameservers(m: WhoisMap): seq<string> {
    Filter(NameserverSlots(m), NonEmpty)
  }

  // ---------------------------------------------------------------------------
  // The columns a WHOIS map produces
  // ---------------------------------------------------------------------------

  /** `value?.split(' ')[0] || null`: the date part of a date-time, or null. */
  function CutDate(v: Option<string>): (r: Option<string>)
    ensures v.None? ==> r.None?
    ensures r.Some? ==> v.Some? && r.value != "" && ' ' !in r.value
    ensures r.Some? ==> |r.value| <= |v.value| && r.value == v.value[..|r.value|]
    ensures r.Some? && |r.value| < |v.value| ==> v.value[|r.value|] == ' '
    ensures v.Some? && r.None? ==> v.value == "" || v.value[0] == ' '
  {
    match v
    case None => None
    case Some(s) => OrNull(Some(BeforeSpace(s)))
  }

  /** The WHOIS-derived columns, shared by the insert of `createDomain` and the update of
      `updateDomainWhois`. */
  datatype WhoisColumns = WhoisColumns(
    registrar: Option<string>,
    registrationDate: Option<string>,
    expirationDate: Option<string>,
    nameservers: seq<string>,
    domainIdExternal: Option<string>,
    lastUpdateDate: Option<string>,
    domainStatus: DomainStatus,
    whoisStatus: Option<string>,
    dnssecStatus: string,
    whoisData: WhoisMap)

  /** The columns a WHOIS map determines. */
  function ColumnsOf(m: WhoisMap): WhoisColumns {
    WhoisColumns(
      OrNull(Field(m, "Registrar Name")),
      CutDate(Field(m, "Created On")),
      CutDate(Field(m, "Expiration Date")),
      Nameservers(m),
      OrNull(Field(m, "Domain ID")),
      CutDate(Field(m, "Last Update On")),
      DeriveStatus(Field(m, "Status")),
      OrNull(Field(m, "Status")),
      OrElse(Field(m, "DNSSEC"), "unsigned"),
      m)
  }

  /** The status block and the nameserver loop of `createDomain`: the status is reassigned
      through the if/else chain and the nameservers are pushed one slot at a time.
      `UpdateDomainWhois` carries its own copy of both, as the source does. */
  method NormalizeWhois(m: WhoisMap) returns (c: WhoisColumns)
    ensures c == ColumnsOf(m)
  {
    var derived := Active;
    var raw := RawStatus(Field(m, "Status"));
    if Contains(raw, "expire") || Contains(raw, "redemption") {
      derived := Expired;
    } else if Contains(raw, "suspended") {
      derived := Suspended;
    }

    var nameservers: seq<string> := [];
    var i := 1;
    while i <= 4
      invariant 1 <= i <= 5
      invariant nameservers == Filter(NameserverSlots(m)[..i - 1], NonEmpty)
    {
      var ns := Field(m, NameserverKey(i));
      ghost var slots := NameserverSlots(m);
      assert slots[..i] == slots[..i - 1] + [slots[i - 1]];
      FilterAppend(slots[..i - 1], [slots[i - 1]], NonEmpty);
      if Truthy(ns) {
        nameservers := nameservers + [ns.value];
      }
      i := i + 1;
    }
    assert NameserverSlots(m)[..4] == NameserverSlots(m);

    c := WhoisColumns(
      OrNull(Field(m, "Registrar Name")),
      CutDate(Field(m, "Created On")),
      CutDate(Field(m, "Expiration Date")),
      nameservers,
      OrNull(Field(m, "Domain ID")),
      CutDate(Field(m, "Last Update On")),
      derived,
      OrNull(Field(m, "Status")),
      OrElse(Field(m, "DNSSEC"), "unsigned"),
      m);
  }

  // ---------------------------------------------------------------------------
  // createDomain and updateDomainWhois
  // ---------------------------------------------------------------------------

  const MinLengthMessage := "Domain name must be at least 3 characters."
  const InvalidInputMessage := "Invalid input data."
  const DuplicateMessage := "This domain already exists in your list."
  const DuplicateKeyCode := "23505"
  const FetchFailedMessage := "Failed to fetch domain information. Please try again."
  const SaveFailedMessage := "An unexpected error occurred while saving."
  const DomainsPath := "/dashboard/domains"

  /** The `State` a form action returns: field errors for `domain`, and a message. */
  datatype FormState = FormState(domainErrors: seq<string>, message: Option<string>)

  /** A server action either returns a state or ends in a redirect. */
  datatype Outcome = Returned(state: FormState) | Redirected(path: string)

  /** The WHOIS service's answer: found (`success` with `data`), rejected (HTTP error or
      `success` false, with the service's `message`), or unreachable (the request or its JSON
      threw, with the thrown error's message). */
  datatype WhoisResponse = Found(data: WhoisMap) | Rejected(message: Option<string>) | Unreachable(error: string)

  /** The database's answer to the insert. */
  datatype InsertResult = Inserted | DbError(code: string, message: string) | InsertThrew

  /** The database's answer to the update; `reported` is the message when what was thrown is an
      `Error`, and `None` otherwise. */
  datatype WriteResult = Written | WriteFailed(reported: Option<string>)

  /** The row `createDomain` inserts. */
  datatype DomainInsert = DomainInsert(
    name: string, renewalPrice: real, note: Option<string>, columns: WhoisColumns,
    hostingInfo: string, createdBy: string)

  /** The columns `updateDomainWhois` writes. */
  datatype DomainUpdate = DomainUpdate(columns: WhoisColumns, updatedAt: string)

  /** What an action asks of the outside world, in order. */
  datatype Effect =
    | FetchWhois(domain: string)
    | InsertDomain(row: DomainInsert)
    | UpdateByName(name: string, patch: DomainUpdate)
    | Revalidate(path: string)

  /** The row inserted for a validated form and a found WHOIS map: `renewal_price || 0`, the
      note as given, the WHOIS columns, an empty `hosting_info` and the current user. */
  function NewDomainRow(domain: string, renewalPrice: Option<real>, note: Option<string>, m: WhoisMap, user: string): DomainInsert {
    DomainInsert(domain, renewalPrice.GetOr(0.0), note, ColumnsOf(m), "", user)
  }

  /** The message for a WHOIS answer that is not a success. */
  function WhoisErrorMessage(w: WhoisResponse): string
    requires !w.Found?
  {
    if w.Rejected? then "WHOIS Error: " + OrElse(w.message, "Domain not found or invalid.")
    else FetchFailedMessage
  }

  /** The message for a failed insert: the duplicate-key code has its own message. */
  function DbErrorMessage(code: string, message: string): string {
    if code == DuplicateKeyCode then DuplicateMessage else "Database Error: " + message
  }

  /** How `createDomain` ends once the insert has been attempted. */
  function InsertOutcome(r: InsertResult): Outcome {
    match r
    case Inserted => Redirected(DomainsPath)
    case DbError(code, message) => Returned(FormState([], Some(DbErrorMessage(code, message))))
    case InsertThrew => Returned(FormState([], Some(SaveFailedMessage)))
  }

  /** `createDomain`: validate the name, look it up, require a user, insert the row. */
  method CreateDomain(
    domain: string, renewalPrice: Option<real>, note: Option<string>,
    whois: WhoisResponse, user: Option<string>, insert: InsertResult)
    returns (out: Outcome, effects: seq<Effect>)
    // a name shorter than 3 characters is rejected before any lookup or insert
    ensures |domain| < 3 <==> out == Returned(FormState([MinLengthMessage], Some(InvalidInputMessage)))
    ensures |domain| < 3 ==> effects == []
    ensures |domain| >= 3 ==> |effects| >= 1 && effects[0] == FetchWhois(domain)
    // a failed lookup ends the action with its message
    ensures |domain| >= 3 && !whois.Found? ==>
      effects == [FetchWhois(domain)] && out == Returned(FormState([], Some(WhoisErrorMessage(whois))))
    // no user: redirect to the login page, nothing inserted
    ensures |domain| >= 3 && whois.Found? && user.None? ==>
      effects == [FetchWhois(domain)] && out == Redirected("/login")
    // otherwise exactly one insert of the normalised row, and the insert's answer decides
    ensures |domain| >= 3 && whois.Found? && user.Some? ==>
      && |effects| >= 2
      && effects[..2] == [FetchWhois(domain), InsertDomain(NewDomainRow(domain, renewalPrice, note, whois.data, user.value))]
      && out == InsertOutcome(insert)
      && effects[2..] == (if insert.Inserted? then [Revalidate(DomainsPath)] else [])
  {
    if |domain| < 3 {
      out := Returned(FormState([MinLengthMessage], Some(InvalidInputMessage)));
      effects := [];
      return;
    }
    effects := [FetchWhois(domain)];
    if !whois.Found? {
      out := Returned(FormState([], Some(WhoisErrorMessage(whois))));
      return;
    }
    if user.None? {
      out := Redirected("/login");
      return;
    }
    var columns := NormalizeWhois(whois.data);
    var row := DomainInsert(domain, renewalPrice.GetOr(0.0), note, columns, "", user.value);
    effects := effects + [InsertDomain(row)];
    out := InsertOutcome(insert);
    if insert.Inserted? {
      effects := effects + [Revalidate(DomainsPath)];
    }
  }

  /** The result object of `updateDomainWhois`. */
  datatype RefreshResult = Refreshed(data: WhoisMap) | RefreshFailed(error: string)

  const FetchWhoisFailed := "Failed to fetch WHOIS data"
  const UnknownUpdateError := "Unknown error occurred - check server logs for details."

  /** `updateDomainWhois`: look the name up again and overwrite the WHOIS columns of the row
      whose `name` equals it; `now` is the timestamp written to `updated_at`. */
  method UpdateDomainWhois(domainName: string, whois: WhoisResponse, now: string, write: WriteResult)
    returns (res: RefreshResult, effects: seq<Effect>)
    ensures |effects| >= 1 && effects[0] == FetchWhois(domainName)
    ensures whois.Rejected? ==> effects == [FetchWhois(domainName)] && res == RefreshFailed(OrElse(whois.message, FetchWhoisFailed))
    ensures whois.Unreachable? ==> effects == [FetchWhois(domainName)] && res == RefreshFailed(whois.error)
    ensures whois.Found? ==>
      && effects == [FetchWhois(domainName), UpdateByName(domainName, DomainUpdate(ColumnsOf(whois.data), now))]
      && res == (if write.Written? then Refreshed(whois.data) else RefreshFailed(write.reported.GetOr(UnknownUpdateError)))
  {
    effects := [FetchWhois(domainName)];
    if whois.Rejected? {
      res := RefreshFailed(OrElse(whois.message, FetchWhoisFailed));
      return;
    }
    if whois.Unreachable? {
      res := RefreshFailed(whois.error);
      return;
    }
    var m := whois.data;
    var derived := Active;
    var raw := RawStatus(Field(m, "Status"));
    if Contains(raw, "expire") || Contains(raw, "redemption") {
      derived := Expired;
    } else if Contains(raw, "suspended") {
      derived := Suspended;
    }

    var nameservers: seq<string> := [];
    var i := 1;
    while i <= 4
      invariant 1 <= i <= 5
      invariant nameservers == Filter(NameserverSlots(m)[..i - 1], NonEmpty)
    {
      var ns := Field(m, NameserverKey(i));
      ghost var slots := NameserverSlots(m);
      assert slots[..i] == slots[..i - 1] + [slots[i - 1]];
      FilterAppend(slots[..i - 1], [slots[i - 1]], NonEmpty);
      if Truthy(ns) {
        nameservers := nameservers + [ns.value];
      }
      i := i + 1;
    }
    assert NameserverSlots(m)[..4] == NameserverSlots(m);

    var patch := DomainUpdate(
      WhoisColumns(
        OrNull(Field(m, "Registrar Name")),
        CutDate(Field(m, "Created On")),
        CutDate(Field(m, "Expiration Date")),
        nameservers,
        OrNull(Field(m, "Domain ID")),
        CutDate(Field(m, "Last Update On")),
        derived,
        OrNull(Field(m, "Status")),
        OrElse(Field(m, "DNSSEC"), "unsigned"),
        m),
      now);
    effects := effects + [UpdateByName(domainName, patch)];
    match write
    case Written =>
      res := Refreshed(whois.data);
    case WriteFailed(reported) =>
      res := RefreshFailed(reported.GetOr(UnknownUpdateError));
  }

  // ---------------------------------------------------------------------------
  // Properties
  // ---------------------------------------------------------------------------

  /** The three status rules, both directions, with "expired" winning over "suspended". */
  lemma StatusRules(status: Option<string>)
    ensures DeriveStatus(status) == Expired <==>
      Contains(RawStatus(status), "expire") || Contains(RawStatus(status), "redemption")
    ensures DeriveStatus(status) == Suspended <==>
      !Contains(RawStatus(status), "expire") && !Contains(RawStatus(status), "redemption")
      && Contains(RawStatus(status), "suspended")
    ensures DeriveStatus(status) == Active <==>
      !Contains(RawStatus(status), "expire") && !Contains(RawStatus(status), "redemption")
      && !Contains(RawStatus(status), "suspended")
  {
  }

  /** A missing status derives "active" and stores a null `whois_status`. */
  lemma MissingStatus(m: WhoisMap)
    requires "Status" !in m
    ensures ColumnsOf(m).domainStatus == Active
    ensures ColumnsOf(m).whoisStatus == None
  {
    var raw := RawStatus(Field(m, "Status"));
    assert raw == "";
    assert !Contains(raw, "expire") && !Contains(raw, "redemption") && !Contains(raw, "suspended");
  }

  /** The status test ignores letter case. */
  lemma StatusIgnoresCase(s: string)
    ensures DeriveStatus(Some(s)) == DeriveStatus(Some(Lower(s)))
  {
    LowerIdempotent(s);
  }

  /** Once a status text derives "expired", adding text on either side keeps it expired. */
  lemma ExpiredIsStable(a: string, s: string, b: string)
    requires DeriveStatus(Some(s)) == Expired
    ensures DeriveStatus(Some(a + s + b)) == Expired
  {
    LowerAppend(a + s, b);
    LowerAppend(a, s);
    var whole := Lower(a) + Lower(s) + Lower(b);
    if Contains(Lower(s), "expire") {
      ContainsExtend(Lower(a), Lower(s), Lower(b), "expire");
    } else {
      ContainsExtend(Lower(a), Lower(s), Lower(b), "redemption");
    }
  }

  /** The worked examples of the status rule. */
  lemma StatusExamples()
    ensures DeriveStatus(Some("clientTransferProhibited, pendingDelete (expire)")) == Expired
    ensures DeriveStatus(Some("redemptionPeriod")) == Expired
    ensures DeriveStatus(Some("SUSPENDED")) == Suspended
    ensures DeriveStatus(Some("ok")) == Active
  {
    var t1 := RawStatus(Some("clientTransferProhibited, pendingDelete (expire)"));
    assert t1[41..47] == "expire";
    ContainsAt(t1, "expire", 41);

    var t2 := RawStatus(Some("redemptionPeriod"));
    assert t2[0..10] == "redemption";
    ContainsAt(t2, "redemption", 0);

    var t3 := RawStatus(Some("SUSPENDED"));
    assert t3 == "suspended";
    assert t3[0..9] == "suspended";
    ContainsAt(t3, "suspended", 0);
    assert !Contains(t3, "redemption");
    assert !Contains(t3, "expire") by {
      forall i | 0 <= i <= 3 ensures !OccursAt(t3, "expire", i) {
        assert t3[i + 1] in {'u', 's', 'p', 'e'};
        assert t3[i..i + 6][1] == t3[i + 1];
        assert "expire"[1] == 'x';
      }
    }

    var t4 := RawStatus(Some("ok"));
    assert |t4| == 2;
  }

  /** The nameserver column holds at most four non-empty values, each taken from one of the
      slots, in key order, and every non-empty slot is among them. */
  lemma NameserverShape(m: WhoisMap)
    ensures |Nameservers(m)| <= 4
    ensures forall k :: 0 <= k < |Nameservers(m)| ==> Nameservers(m)[k] != ""
    ensures IsSubsequence(Nameservers(m), NameserverSlots(m))
    ensures forall j :: 1 <= j <= 4 && Truthy(Field(m, NameserverKey(j))) ==> Field(m, NameserverKey(j)).value in Nameservers(m)
  {
    FilterIsSubsequence(NameserverSlots(m), NonEmpty);
    forall j | 1 <= j <= 4 && Truthy(Field(m, NameserverKey(j)))
      ensures Field(m, NameserverKey(j)).value in Nameservers(m)
    {
      assert NameserverSlots(m)[j - 1] == Field(m, NameserverKey(j)).value;
    }
  }

  /** Absent slots are skipped, not padded: slots 1 and 3 give a list of two. */
  lemma NameserverGapsSkipped(m: WhoisMap, ns1: string, ns3: string)
    requires Field(m, "Nameserver 1") == Some(ns1) && ns1 != ""
    requires "Nameserver 2" !in m
    requires Field(m, "Nameserver 3") == Some(ns3) && ns3 != ""
    requires "Nameserver 4" !in m
    ensures Nameservers(m) == [ns1, ns3]
  {
    var slots := NameserverSlots(m);
    assert NameserverKey(1) == "Nameserver 1" && NameserverKey(2) == "Nameserver 2";
    assert NameserverKey(3) == "Nameserver 3" && NameserverKey(4) == "Nameserver 4";
    assert slots[0] == ns1 && slots[1] == "" && slots[2] == ns3 && slots[3] == "";
    assert slots[1..][1..][1..][1..] == [];
    assert Filter(slots[1..][1..][1..], NonEmpty) == [];
    assert Filter(slots[1..][1..], NonEmpty) == [ns3];
    assert Filter(slots[1..], NonEmpty) == [ns3];
  }

  /** A date-time whose date part has no space is cut to its date part. */
  lemma CutDateAtSpace(date: string, time: string)
    requires date != "" && ' ' !in date
    ensures CutDate(Some(date + " " + time)) == Some(date)
  {
    var s := date + " " + time;
    BeforeSpaceUpTo(s, |date|);
    assert s[..|date|] == date;
  }

  /** A date-time is cut at its first space. */
  lemma DateCutExample()
    ensures CutDate(Some("2024-05-01 10:00:00")) == Some("2024-05-01")
  {
    var date := "2024-05-01";
    assert forall j :: 0 <= j < |date| ==> date[j] in "0123456789-";
    CutDateAtSpace(date, "10:00:00");
    assert date + " " + "10:00:00" == "2024-05-01 10:00:00";
  }

  /** The defaults: with no WHOIS fields at all every optional column is null, the list of
      nameservers is empty, the status is active and DNSSEC is "unsigned". */
  lemma EmptyWhoisDefaults()
    ensures ColumnsOf(map[]) == WhoisColumns(None, None, None, [], None, None, Active, None, "unsigned", map[])
  {
    MissingStatus(map[]);
    assert NameserverSlots(map[]) == ["", "", "", ""];
    FilterDropsAll(NameserverSlots(map[]), NonEmpty);
  }

  /** DNSSEC is copied when present and non-empty and defaults to "unsigned" otherwise. */
  lemma DnssecColumn(m: WhoisMap)
    ensures Truthy(Field(m, "DNSSEC")) ==> ColumnsOf(m).dnssecStatus == m["DNSSEC"]
    ensures !Truthy(Field(m, "DNSSEC")) ==> ColumnsOf(m).dnssecStatus == "unsigned"
  {
  }

  /** The duplicate-key code maps to its own message; every other failure is a
      "Database Error: …" that carries the database's message and cannot be mistaken for it. */
  lemma InsertErrorMessages(code: string, message: string)
    ensures code == DuplicateKeyCode ==> DbErrorMessage(code, message) == DuplicateMessage
    ensures code != DuplicateKeyCode ==>
      && DbErrorMessage(code, message) == "Database Error: " + message
      && DbErrorMessage(code, message) != DuplicateMessage
  {
    if code != DuplicateKeyCode {
      var msg := DbErrorMessage(code, message);
      assert msg[0] == 'D' && DuplicateMessage[0] == 'T';
    }
  }
}
