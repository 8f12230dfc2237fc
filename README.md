# Domain and asset dashboard rules, modelled in Dafny

The repository is a dashboard for the domains, hosting plans, VPS machines and websites an
agency manages. It has two generations:

- The root `app/` tree is built around WHOIS lookups. Its server actions `createDomain` and
  `updateDomainWhois` turn a WHOIS answer (a map from field names such as `Status` or
  `Nameserver 1` to strings) into a domain row. Its domains table shows that data in a modal.
- The `bikinlagi/` tree is a role-based dashboard. It has three staff roles and one table per
  kind of asset. Each table has a search filter, status badges, expiry warnings and
  edit/delete gating. There are also forms for VPS machines and websites, a sidebar, a
  pagination bar and an addon-domains dialog.

This project models the rules of both trees and proves what they promise:

- WHOIS rows:
  - how a WHOIS map becomes the columns of a domain row: the derived status, the left-packed
    nameserver list, dates cut at the first space, and the defaults;
  - both actions write exactly these columns;
  - the validation and error messages of the create action.
- Roles: the three roles, their permissions and the implication chain between them.
- Expiry: the expiry badge over a whole-day count.
- Tables:
  - the search filters, as order-preserving subsequences with exact membership;
  - the badge mappings;
  - the gating by role and by "not yourself";
  - the confirmation state of deletes;
  - the per-row password visibility.
- WHOIS modal: the state changes of the modal in the WHOIS domains table.
- Sidebar and pagination: the navigation list by role, and the pages and links of the
  pagination bar.
- VPS form and new-VPS page:
  - the domain picker: its filter, checkbox toggle and summary label;
  - the required fields;
  - the "unassigned domains" filter and the relation rows of the new-VPS page.
- Website form: the defaults in new and edit mode, the offered domains, the reset of the
  provider on a type change, and how `onSubmit` maps provider ids so that at most one is set.

Anything that talks to the outside world becomes an input or an output of the model. This
covers the database, WHOIS HTTP calls, authentication, the router and the clock:

- Fetched rows, WHOIS answers and the signed-in user are parameters.
- Day counts and "today" are integers.
- The writes an action would make are returned as values: `Effect`, `Write`, `SubmitAction`
  and the `target` of a delete.

`toLowerCase` is modelled as ASCII lower-casing (`Strings.Lower`). JavaScript truthiness of an
optional string is `Strings.Truthy` (present and non-empty). `x || null` is `Strings.OrNull`
and `x || fallback` is `Strings.OrElse`.

Modules follow the source files:

| module | file |
|---|---|
| `WhoisActions` | `app/dashboard/domains/actions.ts` |
| `WhoisDomainsTable` | `app/dashboard/domains/components/domains-table.tsx` |
| `Auth` | `bikinlagi/lib/auth-utils.ts` |
| `ExpiryUtils` | `bikinlagi/lib/utils.ts` |
| `Sidebar` | `bikinlagi/components/dashboard/sidebar.tsx` |
| `Pagination` | `bikinlagi/components/dashboard/pagination.tsx` |
| `AddonDomainsDialog` | `bikinlagi/components/dashboard/addon-domains-dialog.tsx` |
| `WebsiteForm` | `bikinlagi/app/dashboard/websites/components/website-form.tsx` |
| `VpsForm` | `bikinlagi/app/dashboard/vps/components/vps-form.tsx` |
| `VpsNewPage` | `bikinlagi/app/dashboard/vps/new/page.tsx` |
| `StaffTable` | `bikinlagi/app/dashboard/staff/components/staff-table.tsx` |
| `VpsTable` | `bikinlagi/app/dashboard/vps/components/vps-table.tsx` |
| `HostingTable` | `bikinlagi/app/dashboard/hosting/components/hosting-table.tsx` |
| `WebsitesTable` | `bikinlagi/app/dashboard/websites/components/websites-table.tsx` |
| `DomainsTable` | `bikinlagi/app/dashboard/domains/components/domains-table.tsx` |

Three helper modules sit under these. `AssetTables` holds the rules that the asset tables and
the staff table write out identically; each is modelled once:

- the status badge;
- the expiry warning;
- the `deleteId` guard;
- the role gating.

`Strings` (JavaScript string idioms) and `Seqs` (an order-preserving `Filter` and its lemmas)
hold the shared helpers.

## Model

| member | source | states |
|---|---|---|
| WhoisActions.NormalizeWhois | app/dashboard/domains/actions.ts:208-244 | `createDomain`'s copy of the status chain and of the loop that pushes the truthy `Nameserver 1..4` slots. Together with the other columns they give exactly `ColumnsOf(m)`. The loop is proved equal to `Filter(NameserverSlots(m), NonEmpty)`. |
| WhoisActions.StatusRules | app/dashboard/domains/actions.ts:209-216 | The derived status is `Expired` iff the lower-cased Status contains "expire" or "redemption". It is `Suspended` iff it contains "suspended" and neither of those. It is `Active` iff it contains none of the three. Expired wins when both match. |
| WhoisActions.MissingStatus | app/dashboard/domains/actions.ts:210 | With no Status the derived status is active and `whois_status` is null. |
| WhoisActions.StatusIgnoresCase | app/dashboard/domains/actions.ts:210-214 | The status test gives the same result for a Status text and its lower-cased form. |
| WhoisActions.ExpiredIsStable | app/dashboard/domains/actions.ts:212-213 | A Status that derives "expired" still does with any text added before or after it. |
| WhoisActions.StatusExamples | app/dashboard/domains/actions.ts:209-216 | Concrete cases: "pendingDelete (expire)" and "redemptionPeriod" give expired, "SUSPENDED" gives suspended, "ok" gives active. |
| WhoisActions.NameserverShape | app/dashboard/domains/actions.ts:220-224 | At most 4 nameservers, none empty. They are a subsequence of the slots in key order, and every truthy slot is among them. |
| WhoisActions.NameserverGapsSkipped | app/dashboard/domains/actions.ts:220-224 | Slots 1 and 3 present with 2 and 4 absent give the list `[ns1, ns3]`: gaps are skipped, not padded. |
| WhoisActions.CutDate | app/dashboard/domains/actions.ts:233-234 | The date column is a non-empty, space-free prefix of the value that ends at a space or at the end. It is null when the value is missing, empty or starts with a space. |
| WhoisActions.CutDateAtSpace | app/dashboard/domains/actions.ts:233-237 | A date-time "date time" whose date part is non-empty and has no space is stored as exactly that date part. |
| WhoisActions.DateCutExample | app/dashboard/domains/actions.ts:233 | "2024-05-01 10:00:00" is stored as "2024-05-01". |
| WhoisActions.EmptyWhoisDefaults | app/dashboard/domains/actions.ts:230-240 | An empty WHOIS map gives null registrar, dates, external id and whois_status, no nameservers, status active and DNSSEC "unsigned". |
| WhoisActions.DnssecColumn | app/dashboard/domains/actions.ts:240 | DNSSEC is copied when truthy and is "unsigned" otherwise. |
| WhoisActions.CreateDomain | app/dashboard/domains/actions.ts:161-261 | See the cases below this table. |
| WhoisActions.InsertErrorMessages | app/dashboard/domains/actions.ts:246-250 | Code 23505 maps to "This domain already exists in your list.". Any other code maps to "Database Error: " plus the database's message, which never equals the duplicate message. |
| WhoisActions.UpdateDomainWhois | app/dashboard/domains/actions.ts:323-391 | See the cases below this table. |
| WhoisDomainsTable.StatusColorCases | app/dashboard/domains/components/domains-table.tsx:50-61 | active, expired and suspended map to green, red and yellow. Any other text maps to gray, and gray exactly for the others. |
| WhoisDomainsTable.DerivedStatusIsColored | app/dashboard/domains/components/domains-table.tsx:50-61 | Every status the actions can store gets a colour other than gray. |
| WhoisDomainsTable.DateDisplayAgreesWithColumn | app/dashboard/domains/components/domains-table.tsx:236-248 | The modal shows the stored date column whenever that column is set, and "N/A" for a missing or empty field. A value starting with a space shows as empty. |
| WhoisDomainsTable.NameserverSummaryCases | app/dashboard/domains/components/domains-table.tsx:300-302 | The summary is "N/A" when the stored nameserver list is empty. Otherwise it is that list joined by ", ". |
| WhoisDomainsTable.DomainModal.constructor | app/dashboard/domains/components/domains-table.tsx:44-48 | All five hooks start empty, loading false; the modal is closed. |
| WhoisDomainsTable.DomainModal.ClickDomain | app/dashboard/domains/components/domains-table.tsx:63-80 | Selects the row, clears the error and the old data. A row with stored WHOIS data shows it at once, and loading ends with no lookup. Otherwise loading starts and the name to look up is returned. |
| WhoisDomainsTable.DomainModal.ReceiveWhois | app/dashboard/domains/components/domains-table.tsx:79-90 | Success shows the data. Failure shows its message or "Failed to fetch WHOIS data". A throw shows "An error occurred while fetching domain data". Loading ends in every case and the selection is kept. |
| WhoisDomainsTable.DomainModal.CloseModal | app/dashboard/domains/components/domains-table.tsx:107-112 | Selection, data, details and error become null; `loading` is untouched; the modal is closed. |
| WhoisDomainsTable.ClickThenAnswer | app/dashboard/domains/components/domains-table.tsx:63-91 | A click followed by the answer ends with loading off. It shows either the data with no error, or no data with an error. |
| Auth.ParseRole | bikinlagi/lib/auth-utils.ts:1 | A role text parses to a role only if it is that role's name. |
| Auth.RoleNameRoundTrip | bikinlagi/lib/auth-utils.ts:1 | Every role's name parses back to it. |
| Auth.PermissionTable | bikinlagi/lib/auth-utils.ts:3-13 | canManageStaff only for super_admin; canManageAssets exactly for super_admin and admin_web; canUpdateWhois for every role. |
| Auth.PermissionChain | bikinlagi/lib/auth-utils.ts:3-13 | canManageStaff implies canManageAssets, which implies canUpdateWhois. |
| Auth.FinanceIsWhoisOnly | bikinlagi/lib/auth-utils.ts:3-13 | finance may update WHOIS but may neither manage assets nor manage staff. |
| ExpiryUtils.GetExpiryStatus | bikinlagi/lib/utils.ts:8-31 | The label is present iff there is a date and the count is at most 30. There is no class without a label and always one with it. |
| ExpiryUtils.ExpiryBands | bikinlagi/lib/utils.ts:20-30 | ≤0 gives "Expired" and red bold; 1..7 gives "n hari lagi" and orange; 8..30 gives "n hari lagi" and yellow; >30 gives no label. |
| ExpiryUtils.BandClassesDistinct | bikinlagi/lib/utils.ts:21-27 | The three band classes are pairwise different. |
| ExpiryUtils.DaysLeftLabelShape | bikinlagi/lib/utils.ts:24-27 | A day-count label ends in " hari lagi" and is never "Expired". |
| ExpiryUtils.FormatDate | bikinlagi/lib/utils.ts:33-51 | A null, undefined or empty date is "N/A" (for both formatDate and formatDateTime). |
| ExpiryUtils.FormatCurrency | bikinlagi/lib/utils.ts:53-59 | Only a null or undefined amount is "N/A"; zero is formatted. |
| Sidebar.BuildNavigation | bikinlagi/components/dashboard/sidebar.tsx:30-40 | The list built by the `push` is the role's navigation list. |
| Sidebar.NavigationShape | bikinlagi/components/dashboard/sidebar.tsx:30-40 | Every role gets Dashboard, Domain, Hosting, VPS, Website in this order. Only super_admin gets a sixth entry, Staff, last. The length is 6 iff the role is super_admin and 5 otherwise. |
| Sidebar.StaffEntryFollowsPermission | bikinlagi/components/dashboard/sidebar.tsx:38-40 | For a known role, Staff is in the list iff the role may manage staff. |
| Sidebar.HrefsDistinct | bikinlagi/components/dashboard/sidebar.tsx:30-39 | No two entries share an href. |
| Sidebar.AtMostOneActive | bikinlagi/components/dashboard/sidebar.tsx:74 | Highlighting is `pathname === href`; two highlighted entries are the same entry. |
| Pagination.Pages | bikinlagi/components/dashboard/pagination.tsx:24 | The page list has max(0, total) entries and entry i is i+1. |
| Pagination.PagesAreTheRange | bikinlagi/components/dashboard/pagination.tsx:24 | A page is in the list iff 1 ≤ p ≤ total; the list is strictly increasing. |
| Pagination.DisabledIff | bikinlagi/components/dashboard/pagination.tsx:29-64 | First and previous are disabled iff the page is 1. Next and last are disabled iff the page is the total. |
| Pagination.EnabledLinksInRange | bikinlagi/components/dashboard/pagination.tsx:29-64 | For 1 ≤ page ≤ total every enabled link targets a page in [1, total]. |
| Pagination.NoPagesNextEnabled | bikinlagi/components/dashboard/pagination.tsx:24-55 | With total 0 on page 1, "next" is enabled and targets page 2, outside the empty list. |
| AssetTables.StatusBadgeCases | bikinlagi/app/dashboard/vps/components/vps-table.tsx:116-127 | active, expired and pending map to default, destructive and secondary. The outline variant is used exactly for the other statuses, which are also exactly the badges with no text. |
| AssetTables.ExpiryWarningAgreesWithBadge | bikinlagi/app/dashboard/vps/components/vps-table.tsx:216 | For one and the same whole-day count, the red warning appears iff there is a date and the count is ≤ 30, which are the counts `getExpiryStatus` labels. A passed date still shows a count, never "Expired". The two day counts start from different instants; see "Left out". |
| AssetTables.AssetActionsByRole | bikinlagi/app/dashboard/vps/components/vps-table.tsx:76 | The asset actions are offered iff the role is not finance. |
| AssetTables.DeleteGuard.constructor | bikinlagi/app/dashboard/staff/components/staff-table.tsx:65 | No row is marked for deletion; the dialog is closed. |
| AssetTables.DeleteGuard.Request | bikinlagi/app/dashboard/staff/components/staff-table.tsx:204-206 | A delete entry marks its row and opens the dialog. |
| AssetTables.DeleteGuard.Dismiss | bikinlagi/app/dashboard/staff/components/staff-table.tsx:274 | Closing the dialog forgets the row. |
| AssetTables.DeleteGuard.Confirm | bikinlagi/app/dashboard/staff/components/staff-table.tsx:76-99 | With no row marked it returns nothing and changes nothing. Otherwise it returns the marked row and clears the mark. |
| AssetTables.RequestThenConfirm | bikinlagi/app/dashboard/staff/components/staff-table.tsx:76-99 | Marking a row and confirming deletes exactly that row and leaves the dialog closed. |
| StaffTable.FilteredStaffSpec | bikinlagi/app/dashboard/staff/components/staff-table.tsx:70-74 | The filter is a subsequence of the staff list. It keeps every member whose name, email or role contains the term ignoring case, and only those. An empty term keeps all. |
| StaffTable.RoleBadgeCases | bikinlagi/app/dashboard/staff/components/staff-table.tsx:101-125 | super_admin, admin_web and finance map to destructive, default and secondary and are labelled "Super Admin", "Admin Web" and "Finance". No role gets outline. Other text gets outline and is shown unchanged. |
| StaffTable.NoSelfDelete | bikinlagi/app/dashboard/staff/components/staff-table.tsx:162-263 | Both views offer delete entries under the same test, at 204 for the table menu and at 263 for the card footer. They are offered, in listing order, for exactly the listed rows other than the signed-in user's. In the table view each listed row carries either the "Anda" badge (166) or a delete entry, never both, so the two counts add up to the number of rows. The card view has no badge. |
| VpsTable.FilteredVpsSpec | bikinlagi/app/dashboard/vps/components/vps-table.tsx:78-82 | Subsequence of matches on provider, IP address or non-null location; empty term keeps all. |
| VpsTable.ToggleFlipsOnlyId | bikinlagi/app/dashboard/vps/components/vps-table.tsx:109-114 | A toggle flips the id's visibility, leaves every other id's visibility as it was, and adds only that key. |
| VpsTable.ToggleTwice | bikinlagi/app/dashboard/vps/components/vps-table.tsx:109-114 | Toggling an id twice restores its visibility and that of every existing entry. |
| VpsTable.PasswordVisibility.Toggle | bikinlagi/app/dashboard/vps/components/vps-table.tsx:109-114 | The hook's new map is `Toggled(old map, id)`; the id's visibility is negated. |
| VpsTable.CredentialsMasking | bikinlagi/app/dashboard/vps/components/vps-table.tsx:185-193 | Credentials are shown iff user and password are both present. A hidden password shows the mask. Otherwise the real password is shown iff it is marked visible. |
| VpsTable.InitiallyMasked | bikinlagi/app/dashboard/vps/components/vps-table.tsx:71 | With the initial empty map every password is masked. |
| VpsTable.MenuByRole | bikinlagi/app/dashboard/vps/components/vps-table.tsx:248 | Edit and delete are offered iff the role is not finance. |
| VpsTable.LocationDisplay | bikinlagi/app/dashboard/vps/components/vps-table.tsx:183 | A present, non-empty location is shown as stored. The cell reads "-" iff the location is missing or empty, or is literally "-". |
| HostingTable.FilteredHostingSpec | bikinlagi/app/dashboard/hosting/components/hosting-table.tsx:73-77 | Subsequence of matches on provider, package or non-null primary domain; empty term keeps all. |
| HostingTable.MenuByRole | bikinlagi/app/dashboard/hosting/components/hosting-table.tsx:191 | The whole row menu is rendered iff the role is not finance. |
| HostingTable.PrimaryDomainDisplay | bikinlagi/app/dashboard/hosting/components/hosting-table.tsx:164 | A present, non-empty primary domain is shown as stored. The cell reads "-" iff it is missing or empty, or is literally "-". |
| WebsitesTable.FilteredWebsitesSpec | bikinlagi/app/dashboard/websites/components/websites-table.tsx:86-91 | Subsequence of matches on domain, cms, hosting provider or VPS provider; empty term keeps all. |
| WebsitesTable.ProviderDisplayPrecedence | bikinlagi/app/dashboard/websites/components/websites-table.tsx:192-202 | Hosting is shown whenever present. VPS is shown iff there is no hosting but a VPS. "-" appears iff neither is present. |
| WebsitesTable.MenuByRole | bikinlagi/app/dashboard/websites/components/websites-table.tsx:247 | Edit and delete are offered iff the role is not finance. |
| DomainsTable.FilteredDomainsSpec | bikinlagi/app/dashboard/domains/components/domains-table.tsx:74-77 | Subsequence of matches on name or non-null registrar; empty term keeps all. |
| DomainsTable.DomainActionsByRole | bikinlagi/app/dashboard/domains/components/domains-table.tsx:211-219 | Edit is offered to every role. Delete is offered iff the role is not finance, and never without edit. |
| DomainsTable.RegistrarDisplay | bikinlagi/app/dashboard/domains/components/domains-table.tsx:174 | A present, non-empty registrar is shown as stored. The cell reads "-" iff the registrar is missing or empty, or is literally "-". |
| AddonDomainsDialog.FilteredSpec | bikinlagi/components/dashboard/addon-domains-dialog.tsx:34-36 | Subsequence of domains whose name contains the search ignoring case; empty search keeps all. |
| AddonDomainsDialog.TitleCountsWholeList | bikinlagi/components/dashboard/addon-domains-dialog.tsx:50 | The title counts the full list: it is the same for every search term and loading state. |
| AddonDomainsDialog.BodyCases | bikinlagi/components/dashboard/addon-domains-dialog.tsx:52-96 | Loading wins, then the empty-list message. "Tidak ditemukan" appears iff the list is non-empty and nothing matches. Row k shows the name of filtered domain k and its cms or "-". |
| AddonDomainsDialog.DeleteButtonGating | bikinlagi/components/dashboard/addon-domains-dialog.tsx:84-85 | A row has a delete button iff a handler was passed, and it deletes that row's domain. |
| VpsForm.FilteredDomainsSpec | bikinlagi/app/dashboard/vps/components/vps-form.tsx:59 | Subsequence of domains whose name contains the term ignoring case; empty term keeps all. |
| VpsForm.CheckAppends | bikinlagi/app/dashboard/vps/components/vps-form.tsx:131 | Checking appends the id after the unchanged selection. |
| VpsForm.UncheckRemoves | bikinlagi/app/dashboard/vps/components/vps-form.tsx:132 | Unchecking removes every occurrence of the id, keeps the rest in order, and keeps each other id's multiplicity. |
| VpsForm.CheckThenUncheck | bikinlagi/app/dashboard/vps/components/vps-form.tsx:129-133 | Checking an unselected id and unchecking it restores the selection exactly. |
| VpsForm.FindName | bikinlagi/app/dashboard/vps/components/vps-form.tsx:112 | `find` gives the name of the first domain with the id, or nothing iff no domain has it. |
| VpsForm.SelectedLabelCases | bikinlagi/app/dashboard/vps/components/vps-form.tsx:108-115 | An empty selection reads "Pilih Domain". One or two names are joined by ", ". More than two read "first, +(n-1) lainnya". A selection with no resolvable name reads "". |
| VpsForm.UnknownIdDropped | bikinlagi/app/dashboard/vps/components/vps-form.tsx:112 | Selecting an id that no domain has leaves the label's names unchanged. |
| VpsForm.ResolvedNamesShape | bikinlagi/app/dashboard/vps/components/vps-form.tsx:112 | There are never more names than selected ids, and each is the name of a domain whose id is selected. |
| VpsForm.SubmitNeedsADomain | bikinlagi/app/dashboard/vps/components/vps-form.tsx:18-26 | The form has no errors iff the four text fields are filled and at least one domain is selected. An empty selection carries "Pilih minimal satu domain". |
| VpsNewPage.UsedIds | bikinlagi/app/dashboard/vps/new/page.tsx:22 | `used` is exactly the domain ids of both assignment tables; a failed read contributes none. |
| VpsNewPage.OfferedDomainsSpec | bikinlagi/app/dashboard/vps/new/page.tsx:22-23 | Offered domains are a subsequence of the fetched list. Each is in neither assignment table, and every fetched domain in neither table is offered. |
| VpsNewPage.RelationRows | bikinlagi/app/dashboard/vps/new/page.tsx:45 | One relation per selected domain, in selection order, each carrying the new VPS id. |
| VpsNewPage.Submit | bikinlagi/app/dashboard/vps/new/page.tsx:28-57 | See the cases below this table. |
| WebsiteForm.DefaultsAgree | bikinlagi/app/dashboard/websites/components/website-form.tsx:105-110 | New mode gives shared and "". Edit mode gives shared with the hosting id when one is set, otherwise vps with the VPS id or "". |
| WebsiteForm.WebsiteFormState.constructor | bikinlagi/app/dashboard/websites/components/website-form.tsx:112-123 | The form starts from `DefaultValues`: each optional field of the row or "", and the default provider type and id. |
| WebsiteForm.WebsiteFormState.ChangeProviderType | bikinlagi/app/dashboard/websites/components/website-form.tsx:342-347 | Changing the type sets it, resets `providerId` to "" and leaves the other fields alone. |
| WebsiteForm.ChangeThenSubmit | bikinlagi/app/dashboard/websites/components/website-form.tsx:342-347 | A submit straight after a type change is refused: its errors include "Provider harus dipilih", and nothing is written. |
| WebsiteForm.SchemaErrors | bikinlagi/app/dashboard/websites/components/website-form.tsx:27-32 | There are no errors iff the domain and the provider id are both non-empty. "Domain harus dipilih" is reported iff the domain is empty. "Provider harus dipilih" is reported iff the provider id is empty. |
| WebsiteForm.NewFormIsRefused | bikinlagi/app/dashboard/websites/components/website-form.tsx:114-122 | An untouched new form is refused with both the domain and the provider message. |
| WebsiteForm.EditDefaultsAndProvider | bikinlagi/app/dashboard/websites/components/website-form.tsx:105-110 | Editing a row linked to neither a hosting nor a VPS starts with no provider and is refused until one is picked. A row linked to either starts with no provider error. |
| WebsiteForm.DomainOptionsSpec | bikinlagi/app/dashboard/websites/components/website-form.tsx:68 | The offered domains are a subsequence of the fetched ones. They are exactly those with no expiry or an expiry after today, and an expired domain occurs zero times. |
| WebsiteForm.LabelShape | bikinlagi/app/dashboard/websites/components/website-form.tsx:86-96 | Both option labels start with the provider and " – ". A hosting without primary domain reads "provider – -". |
| WebsiteForm.ProviderFieldLabelCases | bikinlagi/app/dashboard/websites/components/website-form.tsx:371 | The field reads "Pilih VPS" iff the type is vps and "Pilih Hosting" iff it is shared, so the two labels differ. |
| WebsiteForm.InsertDataSpec | bikinlagi/app/dashboard/websites/components/website-form.tsx:236-255 | See the cases below this table. |
| WebsiteForm.BlankProviderIsNull | bikinlagi/app/dashboard/websites/components/website-form.tsx:244 | A blank or whitespace-only provider id is written as null. An id with content is written as typed (not trimmed). |
| WebsiteForm.Submit | bikinlagi/app/dashboard/websites/components/website-form.tsx:235-279 | See the cases below this table. |

### Multi-case contracts

`WhoisActions.CreateDomain` (app/dashboard/domains/actions.ts:161-261):

- A name shorter than 3 characters returns "Invalid input data." with the min-length error,
  and nothing is looked up or inserted.
- A failed lookup returns its "WHOIS Error: …" message or the fetch-failure message.
- With no user the action redirects to /login and inserts nothing.
- Otherwise it inserts exactly one row: `renewal_price || 0`, the note, `ColumnsOf(map)`, an
  empty `hosting_info` and the user. The insert's answer then decides: a redirect to
  /dashboard/domains after a revalidation, or the database's message.

`WhoisActions.UpdateDomainWhois` (app/dashboard/domains/actions.ts:323-391):

- A rejected lookup fails with the service's message or "Failed to fetch WHOIS data".
- An unreachable service fails with its error.
- A found map issues one update by name, with `ColumnsOf(map)` and `now`. The action has its
  own copy of the status chain and the nameserver loop (actions.ts:339-355), and that copy is
  proved equal to `ColumnsOf` too. Hence a refresh writes exactly the WHOIS columns that
  `createDomain` inserts for the same map. A failed write
  reports the error's message, or the "Unknown error…" text for a non-Error.

`VpsNewPage.Submit` (bikinlagi/app/dashboard/vps/new/page.tsx:28-57):

- The VPS row always has status "active" and the optional user id.
- A failed insert stops with its message or "Gagal menambah VPS".
- Relation rows are inserted only when the insert returned an id. When it did, they are
  `RelationRows(selection, id)`.
- A failed relation insert stops with its message. Otherwise the page navigates to
  /dashboard/vps.

`WebsiteForm.InsertDataSpec` (bikinlagi/app/dashboard/websites/components/website-form.tsx:236-255):

- At most one provider id is set, and it belongs to the chosen type.
- An id is written iff the typed id has content.
- Empty cms, IP, username and password become null.
- The status is always "active".

`WebsiteForm.Submit` (`form.handleSubmit(onSubmit)`, website-form.tsx:27-32, 235-279 and 289):

- Values that break the schema are refused with exactly `SchemaErrors(values)`, and
  `onSubmit` does not run. A submit is refused iff there are schema errors.
- With valid values and no user nothing is written.
- In edit mode it updates the row with the same id and the user as owner, without `created_by`.
- In new mode it inserts the row with `created_by` set to the user.
- Both write `InsertData(values)`. Only an insert carries a `created_by`, and it is the user.

The `getStatusColor`, warning and `deleteId` rules cited for one table are written identically
in the others:

- `getStatusColor` at hosting-table.tsx:104-115, websites-table.tsx:118-129 and
  bikinlagi domains-table.tsx:104-115.
- The warning at hosting-table.tsx:169, websites-table.tsx:215 and domains-table.tsx:179.
- `deleteId` in each table's `handleDelete`.

Each is modelled once in `AssetTables`.

## Left out

- Every call to the database, the authentication service, the WHOIS HTTP service, the router,
  `revalidatePath` and toasts. Their answers are parameters and their requests are returned
  values. That includes `fetchDomainWhois` and `getDomainDetails`, which are I/O wrappers.
- Whether the VPS insert returns rows at all, which depends on the client library. The
  returned id is a parameter of `VpsNewPage.Submit`.
- The clock and date arithmetic: `new Date()`, `Math.ceil` over milliseconds, `setHours`, and
  parsing date strings. Day counts and "today" are integers. A date string the browser cannot
  parse is not represented.
- Locale formatting (date-fns `format`, `toLocaleString`, `Intl.NumberFormat`) and
  `parseFloat` of costs. The formatters are parameters of `ExpiryUtils.FormatDate` and
  `FormatCurrency`. The new-VPS cost is kept as typed.
- WhoisActions.CreateDomain: `renewal_price` is a Dafny `real`. Floating-point behaviour of
  the coerced number (NaN, rounding) is not modelled.
- WhoisActions.CreateDomain: the `min(3)` test counts the name's Unicode scalar values
  (`|domain|`), while the validation library counts UTF-16 code units. A name of two
  characters outside the Basic Multilingual Plane (such as two emoji) passes in the source but
  is refused by the model.
- AssetTables.ExpiryWarningAgreesWithBadge: the tables count days from the current instant,
  `ceil((expiry - now) / day)`, at vps-table.tsx:129-133. `getExpiryStatus` counts from local
  midnight (utils.ts:13-18). The lemma relates the two rules for one shared integer count. For
  the same date the two counts can differ by one: an expiry at 12:00 thirty days ahead, seen at
  15:00, gives 30 in a table (a warning) and 31 in `getExpiryStatus` (no label).
- The validation library beyond its `min` rules. That covers coercions, the exact messages it
  uses for missing fields (a `None` message in `VpsForm.FieldError`), and react-hook-form's
  field-level revalidation. The website form's two `min(1)` rules are modelled by
  `WebsiteForm.SchemaErrors`.
  `createDomain` is modelled from the point where validation gives a name, price and note.
- `handleRefreshWhois`, the `window.location.reload`/`alert` handler of the WHOIS table, being
  browser I/O around the modelled `updateDomainWhois`.
- The provider auto-detection chain of the website form (website-form.tsx:135-233) and
  `loadProviders`. These are awaited remote lookups. Only their label formats are modelled.
- The staff-record fallbacks in `bikinlagi/lib/auth.ts`, `auth-client.ts` and the login form.
  `bikinlagi/lib/auth.ts` is used only for its re-export of the three permission predicates.
- The clipboard copy and its timer in the addon dialog, the `loading` flags of forms, and
  JSX/Tailwind markup beyond the mapped class and label values.
- `WhoisDomainsTable.DomainModal.ReceiveWhois` applies an answer whatever is selected at that
  moment, as the source does. The model does not track which click an answer belongs to.
- `Strings.Lower`: JavaScript `toLowerCase` is Unicode-aware. The model lower-cases ASCII
  letters only, so a search or status containing non-ASCII capitals is not covered.
- `WebsiteForm.HasContent`: `trim` is modelled over ASCII white space. Unicode spaces such
  as U+00A0 count as content in the model.
- The final `else` of the provider mapping in `onSubmit` cannot happen once the type has been
  validated as `shared` or `vps`, so `WebsiteForm.ProviderType` has only those two values.
- Scripts, API routes, layouts, the backup button and the placeholder components, which are
  seeding, plumbing or static UI.
