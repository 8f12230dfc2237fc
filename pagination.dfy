/**
 * `bikinlagi/components/dashboard/pagination.tsx`: the page list and the four navigation links
 * (first, previous, next, last) with their target pages and disabled states.
 */
module Pagination {

  /** `Array.from({ length: totalPages }, (_, i) => i + 1)`; a length below one gives no pages. */
  function Pages(totalPages: int): (r: seq<int>)
    ensures |r| == (if totalPages < 0 then 0 else totalPages)
    ensures forall i :: 0 <= i < |r| ==> r[i] == i + 1
  {
    if totalPages <= 0 then [] else Pages(totalPages - 1) + [totalPages]
  }

  /** A link: the page it points to, and whether it is rendered disabled. */
  datatype PageLink = PageLink(target: int, disabled: bool)

  /** The four links, in the order they are rendered. */
  datatype Links = Links(first: PageLink, previous: PageLink, next: PageLink, last: PageLink)

  function PaginationLinks(currentPage: int, totalPages: int): Links {
    Links(
      PageLink(1, currentPage == 1),
      PageLink(currentPage - 1, currentPage == 1),
      PageLink(currentPage + 1, currentPage == totalPages),
      PageLink(totalPages, currentPage == totalPages))
  }

  /** The page list is exactly 1, 2, …, totalPages: strictly increasing, and each page in
      range appears in it. */
  lemma {:induction false} PagesAreTheRange(totalPages: int, p: int)
    ensures p in Pages(totalPages) <==> 1 <= p <= totalPages
    ensures forall i, j :: 0 <= i < j < |Pages(totalPages)| ==> Pages(totalPages)[i] < Pages(totalPages)[j]
  {
    if 1 <= p <= totalPages {
      assert Pages(totalPages)[p - 1] == p;
    }
  }

  /** First and previous are disabled exactly on page 1; next and last exactly on the last page. */
  lemma DisabledIff(currentPage: int, totalPages: int)
    ensures PaginationLinks(currentPage, totalPages).first.disabled <==> currentPage == 1
    ensures PaginationLinks(currentPage, totalPages).previous.disabled <==> currentPage == 1
    ensures PaginationLinks(currentPage, totalPages).next.disabled <==> currentPage == totalPages
    ensures PaginationLinks(currentPage, totalPages).last.disabled <==> currentPage == totalPages
  {
  }

  predicate InRange(link: PageLink, totalPages: int) {
    link.disabled || 1 <= link.target <= totalPages
  }

  /** On a page within range, every link that is enabled points at a page of the list. */
  lemma EnabledLinksInRange(currentPage: int, totalPages: int)
    requires 1 <= currentPage <= totalPages
    ensures var l := PaginationLinks(currentPage, totalPages);
      InRange(l.first, totalPages) && InRange(l.previous, totalPages)
      && InRange(l.next, totalPages) && InRange(l.last, totalPages)
    ensures var l := PaginationLinks(currentPage, totalPages);
      (!l.next.disabled ==> l.next.target in Pages(totalPages))
      && (!l.previous.disabled ==> l.previous.target in Pages(totalPages))
  {
    PagesAreTheRange(totalPages, currentPage + 1);
    PagesAreTheRange(totalPages, currentPage - 1);
  }

  /** With no pages at all (a total of zero on page one) the guard does not hold: "next" is
      enabled and points at page 2, outside the empty list. */
  lemma NoPagesNextEnabled()
    ensures Pages(0) == []
    ensures !PaginationLinks(1, 0).next.disabled && PaginationLinks(1, 0).next.target == 2
    ensures !InRange(PaginationLinks(1, 0).next, 0)
  {
  }
}
