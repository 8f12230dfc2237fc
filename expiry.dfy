/**
 * `bikinlagi/lib/utils.ts`: the expiry badge and the "N/A" branches of the formatters.
 * The day count is computed from the wall clock in the source; here the caller supplies it,
 * with `None` standing for a missing expiry date.
 */
module ExpiryUtils {
  import opened Wrappers
  import opened Strings

  /** The `{ label, className }` (label is a reserved word in Dafny, hence `badge`) record that `getExpiryStatus` returns. */
  datatype ExpiryStatus = ExpiryStatus(badge: Option<string>, className: string)

  const ExpiredClass := "text-red-600 font-bold"
  const UrgentClass := "text-orange-500 font-semibold"
  const SoonClass := "text-yellow-600"

  /** The "n hari lagi" ("n days left") label. */
  function DaysLeftLabel(daysLeft: int): string {
    IntToString(daysLeft) + " hari lagi"
  }

  /** `getExpiryStatus` over the whole-day count until expiry. */
  function GetExpiryStatus(daysLeft: Option<int>): (e: ExpiryStatus)
    ensures e.badge.Some? <==> daysLeft.Some? && daysLeft.value <= 30
    ensures e.badge.None? ==> e.className == ""
    ensures e.badge.Some? ==> e.className != ""
  {
    match daysLeft
    case None => ExpiryStatus(None, "")
    case Some(d) =>
      if d <= 0 then ExpiryStatus(Some("Expired"), ExpiredClass)
      else if d <= 7 then ExpiryStatus(Some(DaysLeftLabel(d)), UrgentClass)
      else if d <= 30 then ExpiryStatus(Some(DaysLeftLabel(d)), SoonClass)
      else ExpiryStatus(None, "")
  }

  /** The four bands, one lemma per band plus disjointness. */
  lemma ExpiryBands(d: int)
    ensures d <= 0 ==> GetExpiryStatus(Some(d)) == ExpiryStatus(Some("Expired"), ExpiredClass)
    ensures 1 <= d <= 7 ==> GetExpiryStatus(Some(d)) == ExpiryStatus(Some(DaysLeftLabel(d)), UrgentClass)
    ensures 8 <= d <= 30 ==> GetExpiryStatus(Some(d)) == ExpiryStatus(Some(DaysLeftLabel(d)), SoonClass)
    ensures d > 30 ==> GetExpiryStatus(Some(d)) == ExpiryStatus(None, "")
  {
  }

  /** The three warning classes are pairwise distinct, so the bands never share a style. */
  lemma BandClassesDistinct()
    ensures ExpiredClass != UrgentClass && UrgentClass != SoonClass && ExpiredClass != SoonClass
  {
  }

  /** A day-count label is never the word "Expired": it ends in " hari lagi". */
  lemma {:induction false} DaysLeftLabelShape(d: int)
    ensures |DaysLeftLabel(d)| > |" hari lagi"|
    ensures DaysLeftLabel(d)[|DaysLeftLabel(d)| - |" hari lagi"|..] == " hari lagi"
    ensures DaysLeftLabel(d) != "Expired"
  {
    var l := DaysLeftLabel(d);
    assert l[|l| - 10..] == " hari lagi";
    assert l[|l| - 1] == 'i';
    assert "Expired"[6] == 'd';
  }

  /** `formatDate` and `formatDateTime`: a missing or empty date reads "N/A"; any other value
      is handed to the locale formatter, which is not modelled and is a parameter. */
  function FormatDate(date: Option<string>, localized: string -> string): (r: string)
    ensures !Truthy(date) ==> r == "N/A"
    ensures Truthy(date) ==> r == localized(date.value)
  {
    if !Truthy(date) then "N/A" else localized(date.value)
  }

  /** `formatCurrency`: only a missing amount reads "N/A"; zero is still formatted. */
  function FormatCurrency<N>(amount: Option<N>, localized: N -> string): (r: string)
    ensures amount.None? ==> r == "N/A"
    ensures amount.Some? ==> r == localized(amount.value)
  {
    if amount.None? then "N/A" else localized(amount.value)
  }
}
