/** The pager of client/src/components/ui/Pagination.tsx: which page
    buttons it shows, the "Showing x to y of n results" line, and when its
    Previous and Next buttons are disabled. */
module Pagination {
  import opened Common
  import opened Paging

  const MaxVisiblePages := 3

  /** The pages a run of page buttons covers when they are consecutive. */
  predicate Consecutive(pages: seq<int>)
  {
    forall i :: 0 <= i < |pages| - 1 ==> pages[i + 1] == pages[i] + 1
  }

  /** `getPageNumbers`: every page when there are at most three; otherwise
      the current page with its neighbours, widened to three at either end. */
  method GetPageNumbers(currentPage: int, totalPages: int) returns (pages: seq<int>)
    ensures |pages| <= MaxVisiblePages
    ensures totalPages <= MaxVisiblePages ==>
      |pages| == Max(totalPages, 0) && forall i :: 0 <= i < |pages| ==> pages[i] == i + 1
    ensures MaxVisiblePages < totalPages && 1 <= currentPage <= totalPages ==>
      && |pages| == MaxVisiblePages
      && currentPage in pages
      && Consecutive(pages)
      && 1 <= pages[0] && pages[|pages| - 1] <= totalPages
      && pages[0] == Max(1, Min(currentPage - 1, totalPages - 2))
  {
    pages := [];
    if totalPages <= MaxVisiblePages {
      var i := 1;
      while i <= totalPages
        invariant 1 <= i <= Max(totalPages, 0) + 1
        invariant |pages| == i - 1
        invariant forall j :: 0 <= j < |pages| ==> pages[j] == j + 1
      {
        pages := pages + [i];
        i := i + 1;
      }
    } else {
      pages := pages + [currentPage];
      if currentPage > 1 {
        pages := [currentPage - 1] + pages;
      }
      if currentPage < totalPages {
        pages := pages + [currentPage + 1];
      }
      if |pages| < MaxVisiblePages {
        if currentPage == totalPages && currentPage > 2 {
          pages := [currentPage - 2] + pages;
        } else if currentPage == 1 && totalPages > 2 {
          pages := pages + [currentPage + 2];
        }
      }
    }
  }

  /** First item number of the "Showing" line. */
  function ShowingFrom(currentPage: int, itemsPerPage: int, totalItems: int): int
  {
    Min((currentPage - 1) * itemsPerPage + 1, totalItems)
  }

  /** Last item number of the "Showing" line. */
  function ShowingTo(currentPage: int, itemsPerPage: int, totalItems: int): int
  {
    Min(currentPage * itemsPerPage, totalItems)
  }

  /** Neither number exceeds the item count; on a page that holds items the
      line numbers exactly the items of that page, counting from 1. */
  lemma ShowingSpec<T>(items: seq<T>, currentPage: int, itemsPerPage: nat)
    requires itemsPerPage > 0
    ensures ShowingFrom(currentPage, itemsPerPage, |items|) <= |items|
    ensures ShowingTo(currentPage, itemsPerPage, |items|) <= |items|
    ensures currentPage >= 1 && (currentPage - 1) * itemsPerPage < |items| ==>
      var from, to := ShowingFrom(currentPage, itemsPerPage, |items|), ShowingTo(currentPage, itemsPerPage, |items|);
      && 1 <= from <= to
      && from == (currentPage - 1) * itemsPerPage + 1
      && Page(items, currentPage, itemsPerPage) == items[from - 1..to]
  {
    if currentPage >= 1 && (currentPage - 1) * itemsPerPage < |items| {
      var start := (currentPage - 1) * itemsPerPage;
      assert currentPage * itemsPerPage == start + itemsPerPage;
      assert start >= 0;
      PageWindow(items, currentPage, itemsPerPage);
    }
  }

  /** Previous is disabled on page 1, Next on the last page. */
  predicate PreviousEnabled(currentPage: int)
  {
    currentPage != 1
  }

  predicate NextEnabled(currentPage: int, totalPages: int)
  {
    currentPage != totalPages
  }

  /** From a page of the list, an enabled button leads to a page of the list. */
  lemma EnabledButtonsStayInRange(currentPage: int, totalPages: int)
    requires 1 <= currentPage <= totalPages
    ensures PreviousEnabled(currentPage) <==> currentPage > 1
    ensures NextEnabled(currentPage, totalPages) <==> currentPage < totalPages
    ensures PreviousEnabled(currentPage) ==> 1 <= currentPage - 1 <= totalPages
    ensures NextEnabled(currentPage, totalPages) ==> 1 <= currentPage + 1 <= totalPages
  {
  }

  /** With no pages at all, Next stays enabled on page 1 and leads to page 2.
      The product list renders this pager only when the current page holds
      items, so it never reaches this case; it is a property of the component
      on its own. */
  lemma NextEnabledWithoutPages()
    ensures NextEnabled(1, TotalPages(0, 1)) && 1 + 1 > TotalPages(0, 1)
  {
  }
}
