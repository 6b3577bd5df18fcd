/** The `Pagination` control: the "Showing a to b of n" range, the previous and next
    arrows and one button per page. */
module Pagination {

  /** The two numbers of "Showing {startIndex + 1} to {Math.min(endIndex, totalItems)}". */
  datatype Range = Range(first: int, last: int)

  function RangeText(startIndex: int, endIndex: int, totalItems: nat): (r: Range)
    ensures r.first == startIndex + 1
    ensures r.last <= totalItems && r.last <= endIndex
    ensures r.last == endIndex || r.last == totalItems
  {
    Range(startIndex + 1, if endIndex < totalItems then endIndex else totalItems)
  }

  /** An arrow: disabled, or the page its click requests. */
  datatype Arrow = Disabled | Requests(page: int)

  function Prev(currentPage: int): (a: Arrow)
    ensures a.Disabled? <==> currentPage == 1
    ensures a.Requests? ==> a.page == currentPage - 1
  {
    if currentPage == 1 then Disabled else Requests(currentPage - 1)
  }

  function Next(currentPage: int, totalPages: nat): (a: Arrow)
    ensures a.Disabled? <==> currentPage == totalPages
    ensures a.Requests? ==> a.page == currentPage + 1
  {
    if currentPage == totalPages then Disabled else Requests(currentPage + 1)
  }

  datatype PageButton = PageButton(number: nat, requests: nat, highlighted: bool)

  /** `[...Array(totalPages)].map((_, index) => ...)`. */
  function PageButtons(currentPage: int, totalPages: nat): (bs: seq<PageButton>)
    ensures |bs| == totalPages
    ensures forall i :: 0 <= i < totalPages ==>
              bs[i].number == i + 1 && bs[i].requests == i + 1 && (bs[i].highlighted <==> currentPage == i + 1)
  {
    seq(totalPages, (i: nat) => PageButton(i + 1, i + 1, currentPage == i + 1))
  }

  /** Every request the control can make: one of the page buttons, or an enabled arrow. */
  ghost predicate CanRequest(currentPage: int, totalPages: nat, page: int)
  {
    (exists i :: 0 <= i < |PageButtons(currentPage, totalPages)| && PageButtons(currentPage, totalPages)[i].requests == page)
    || Prev(currentPage) == Requests(page)
    || Next(currentPage, totalPages) == Requests(page)
  }

  /** From a page within range, the control only ever requests pages within range, and
      exactly one button is highlighted. */
  lemma StaysInRange(currentPage: int, totalPages: nat, page: int)
    requires 1 <= currentPage <= totalPages
    ensures CanRequest(currentPage, totalPages, page) ==> 1 <= page <= totalPages
    ensures PageButtons(currentPage, totalPages)[currentPage - 1].highlighted
    ensures forall i :: 0 <= i < totalPages && PageButtons(currentPage, totalPages)[i].highlighted ==> i == currentPage - 1
  {
  }

  /** Outside the range (a page left behind by a narrower search) the next arrow stays
      enabled and leads further away, and no button is highlighted. */
  lemma BeyondRangeMovesAway(currentPage: int, totalPages: nat)
    requires currentPage > totalPages
    ensures Next(currentPage, totalPages) == Requests(currentPage + 1)
    ensures forall i :: 0 <= i < totalPages ==> !PageButtons(currentPage, totalPages)[i].highlighted
  {
  }

  /** On a page of a list with `n` rows, the text's upper bound is the page's last row. */
  lemma RangeOfAPage(page: int, n: nat)
    requires page >= 1 && (page - 1) * 10 < n
    ensures var r := RangeText((page - 1) * 10, (page - 1) * 10 + 10, n);
            1 <= r.first <= r.last <= n && r.last - r.first < 10
  {
  }
}
