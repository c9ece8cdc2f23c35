/** The crop price table of
    client/src/components/price-prediction/PredictionTable.tsx: the crops
    the trend report lists, narrowed to one category, five to a page, with
    Previous and Next buttons and a "Showing x to y of n results" line. */
module PredictionTable {
  import opened Common
  import opened Paging
  import opened PriceTrend

  const AllCategoriesChoice := "All Categories"
  const CropsPerPage := 5

  function InCategory(selected: string): CropTrend -> bool
  {
    (c: CropTrend) => CategoryLabel(c.category) == selected
  }

  /** "All Categories" keeps the list as it is; any other choice keeps the
      crops whose category label is exactly that choice. */
  function FilterCategory(crops: seq<CropTrend>, selected: string): seq<CropTrend>
  {
    if selected == AllCategoriesChoice then crops else Filter(crops, InCategory(selected))
  }

  /** The filter keeps the report's order and exactly the crops of the
      chosen category, or all of them. */
  lemma FilterCategorySpec(crops: seq<CropTrend>, selected: string)
    ensures IsSubsequence(FilterCategory(crops, selected), crops)
    ensures forall c :: c in FilterCategory(crops, selected) <==>
      c in crops && (selected == AllCategoriesChoice || CategoryLabel(c.category) == selected)
  {
    if selected == AllCategoriesChoice {
      IsSubsequenceRefl(crops);
    } else {
      FilterIsSubsequence(crops, InCategory(selected));
      FilterMembers(crops, InCategory(selected));
    }
  }

  /** The "Previous" updater `Math.max(1, p - 1)`. */
  function PreviousPage(p: int): (r: int)
    ensures r >= 1
    ensures p > 1 ==> r == p - 1
    ensures p <= 1 ==> r == 1
  {
    Max(1, p - 1)
  }

  /** The "Next" updater `Math.min(totalPages, p + 1)`. */
  function NextPage(p: int, totalPages: nat): (r: int)
    ensures r <= totalPages
    ensures p < totalPages ==> r == p + 1
    ensures p >= totalPages ==> r == totalPages
  {
    Min(totalPages, p + 1)
  }

  /** First item number of the "Showing" line, not clamped. */
  function ShowingStart(p: int): int
  {
    (p - 1) * CropsPerPage + 1
  }

  /** Last item number of the "Showing" line. */
  function ShowingEnd(p: int, n: nat): int
  {
    Min(p * CropsPerPage, n)
  }

  /** From any page of a non-empty table, both buttons lead to a page of
      the table: Previous one back but never below 1, Next one on but never
      past the last. */
  lemma TransitionsStayInRange(p: int, totalPages: nat)
    requires 1 <= p <= totalPages
    ensures 1 <= PreviousPage(p) <= totalPages
    ensures 1 <= NextPage(p, totalPages) <= totalPages
    ensures NextPage(p, totalPages) == if p == totalPages then p else p + 1
  {
  }

  /** On a page that holds crops, the "Showing" line numbers exactly the
      crops the page shows, counting from 1. */
  lemma ShowingMatchesPage(crops: seq<CropTrend>, p: int)
    requires p >= 1 && (p - 1) * CropsPerPage < |crops|
    ensures 1 <= ShowingStart(p) <= ShowingEnd(p, |crops|) <= |crops|
    ensures ShowingEnd(p, |crops|) - ShowingStart(p) + 1 == |Page(crops, p, CropsPerPage)|
    ensures Page(crops, p, CropsPerPage) == crops[ShowingStart(p) - 1..ShowingEnd(p, |crops|)]
  {
    PageWindow(crops, p, CropsPerPage);
  }

  /** With no crops in the chosen category there are no pages, and "Next"
      from page 1 moves to page 0, whose "Showing" line reads "-4 to 0". */
  lemma NextWithNoResults()
    ensures TotalPages(0, CropsPerPage) == 0
    ensures NextPage(1, TotalPages(0, CropsPerPage)) == 0
    ensures ShowingStart(0) == -4 && ShowingEnd(0, 0) == 0
  {
  }

  /** "Next" clamped to page 1 from below as well. */
  function ClampedNextPage(p: int, totalPages: nat): int
  {
    Max(1, Min(totalPages, p + 1))
  }

  /** The clamped "Next" never leaves page 1 and up, so the "Showing" line
      never starts below 1; on a non-empty table it agrees with the
      original. */
  lemma ClampedNextStaysOnAPage(p: int, totalPages: nat)
    requires p >= 1
    ensures ClampedNextPage(p, totalPages) >= 1
    ensures ShowingStart(ClampedNextPage(p, totalPages)) >= 1
    ensures totalPages >= 1 ==> ClampedNextPage(p, totalPages) == NextPage(p, totalPages)
    ensures totalPages >= 1 && p <= totalPages ==> ClampedNextPage(p, totalPages) <= totalPages
  {
  }

  /** The table's state: the chosen category and the current page. */
  class Table {
    var selectedCategory: string
    var currentPage: int

    constructor ()
      ensures selectedCategory == AllCategoriesChoice && currentPage == 1
    {
      selectedCategory := AllCategoriesChoice;
      currentPage := 1;
    }

    function Filtered(crops: seq<CropTrend>): seq<CropTrend>
      reads this
    {
      FilterCategory(crops, selectedCategory)
    }

    function TotalPagesOf(crops: seq<CropTrend>): nat
      reads this
    {
      TotalPages(|Filtered(crops)|, CropsPerPage)
    }

    /** The crops on the current page. */
    function Shown(crops: seq<CropTrend>): seq<CropTrend>
      reads this
    {
      Page(Filtered(crops), currentPage, CropsPerPage)
    }

    /** Choosing a category does not move the page. */
    method SelectCategory(category: string)
      modifies this
      ensures selectedCategory == category && currentPage == old(currentPage)
    {
      selectedCategory := category;
    }

    method Previous()
      modifies this
      ensures currentPage == PreviousPage(old(currentPage)) && selectedCategory == old(selectedCategory)
    {
      currentPage := Max(1, currentPage - 1);
    }

    method Next(crops: seq<CropTrend>)
      modifies this
      ensures currentPage == NextPage(old(currentPage), TotalPagesOf(crops))
      ensures selectedCategory == old(selectedCategory)
    {
      currentPage := Min(TotalPagesOf(crops), currentPage + 1);
    }

    /** The numbered button with index i. */
    method GoToPage(index: nat)
      modifies this
      ensures currentPage == index + 1 && selectedCategory == old(selectedCategory)
    {
      currentPage := index + 1;
    }
  }
}
