/** The investment opportunities on the client: the farmer details that
    client/src/hooks/useInvestments.ts fills into each investment, and the
    search, sort and pages of
    client/src/components/farm-hub/agri-trade/InvestmentList.tsx. */
module InvestmentClient {
  import opened Common
  import opened Schema
  import opened Sorting
  import opened Paging

  /** An investment as the client holds it: the stored record and the two
      display fields the server may leave out. */
  datatype ClientInvestment = ClientInvestment(base: Investment, farmerName: Option<string>, farmerInitials: Option<string>)

  const DefaultFarmerName := "Farmer Name"

  function Enhanced(i: ClientInvestment): ClientInvestment
  {
    i.(farmerName := if Filled(i.farmerName) then i.farmerName else Some(DefaultFarmerName),
       farmerInitials := if Filled(i.farmerInitials) then i.farmerInitials else Some(Initials(i.base.title)))
  }

  /** `enhancedInvestments`: one entry per investment, in the same order and
      with the same record; a missing or empty farmer name becomes "Farmer
      Name", missing or empty initials become the upper-cased first two
      characters of the title (all of it when shorter). */
  function EnhancedInvestments(investments: seq<ClientInvestment>): (r: seq<ClientInvestment>)
    ensures |r| == |investments|
    ensures forall i :: 0 <= i < |r| ==>
      && r[i].base == investments[i].base
      && (Filled(investments[i].farmerName) ==> r[i].farmerName == investments[i].farmerName)
      && (!Filled(investments[i].farmerName) ==> r[i].farmerName == Some(DefaultFarmerName))
      && (Filled(investments[i].farmerInitials) ==> r[i].farmerInitials == investments[i].farmerInitials)
      && (!Filled(investments[i].farmerInitials) ==> r[i].farmerInitials == Some(Initials(investments[i].base.title)))
  {
    if investments == [] then []
    else [Enhanced(investments[0])] + EnhancedInvestments(investments[1..])
  }

  /** After the defaults both display fields are filled, and filling them
      again changes nothing. */
  lemma {:induction false} EnhancedIdempotent(investments: seq<ClientInvestment>)
    ensures forall i :: 0 <= i < |investments| ==>
      Filled(EnhancedInvestments(investments)[i].farmerName)
    ensures EnhancedInvestments(EnhancedInvestments(investments)) == EnhancedInvestments(investments)
  {
    if investments != [] {
      EnhancedIdempotent(investments[1..]);
      var e := EnhancedInvestments(investments);
      assert e[1..] == EnhancedInvestments(investments[1..]);
      assert Enhanced(e[0]) == e[0];
    }
  }

  /** The search box: the lower-cased term occurs in the lower-cased title,
      description or crop type. */
  predicate SearchHit(term: string, i: ClientInvestment)
  {
    || Includes(ToLower(i.base.title), ToLower(term))
    || Includes(ToLower(i.base.description), ToLower(term))
    || Includes(ToLower(i.base.cropType), ToLower(term))
  }

  function Searched(term: string): ClientInvestment -> bool
  {
    i => SearchHit(term, i)
  }

  /** The search keeps the list's order and exactly the hits; an empty term
      keeps everything. */
  lemma SearchSpec(investments: seq<ClientInvestment>, term: string)
    ensures IsSubsequence(Filter(investments, Searched(term)), investments)
    ensures forall i :: i in Filter(investments, Searched(term)) <==> i in investments && SearchHit(term, i)
    ensures term == "" ==> Filter(investments, Searched(term)) == investments
  {
    FilterIsSubsequence(investments, Searched(term));
    FilterMembers(investments, Searched(term));
    if term == "" {
      forall i ensures Searched(term)(i) {
        assert OccursAt(ToLower(term), ToLower(i.base.title), 0);
      }
      FilterAll(investments, Searched(term));
    }
  }

  /** The comparator of the sort switch; an unknown choice sorts like
      "Returns". */
  function InvestmentOrder(sortBy: string): (ClientInvestment, ClientInvestment) -> real
  {
    (a: ClientInvestment, b: ClientInvestment) =>
      if sortBy == "Duration: Short to Long" then (a.base.investmentPeriod - b.base.investmentPeriod) as real
      else if sortBy == "Duration: Long to Short" then (b.base.investmentPeriod - a.base.investmentPeriod) as real
      else if sortBy == "Investment: Low to High" then a.base.minInvestment - b.base.minInvestment
      else b.base.expectedReturn - a.base.expectedReturn
  }

  const InvestmentsPerPage := 3

  /** The found investments in the order the sort box asks for. */
  function SortedInvestments(investments: seq<ClientInvestment>, term: string, sortBy: string): seq<ClientInvestment>
  {
    SortBy(Filter(investments, Searched(term)), InvestmentOrder(sortBy))
  }

  /** The sorted list holds exactly the found investments, each as often as
      found, ordered by expected return from highest, by period either way,
      or by minimum investment from lowest, as the sort box says. */
  lemma SortedInvestmentsSpec(investments: seq<ClientInvestment>, term: string, sortBy: string)
    ensures var r := SortedInvestments(investments, term, sortBy);
      && multiset(r) == multiset(Filter(investments, Searched(term)))
      && (forall i, j :: 0 <= i < j < |r| ==>
        if sortBy == "Duration: Short to Long" then r[i].base.investmentPeriod <= r[j].base.investmentPeriod
        else if sortBy == "Duration: Long to Short" then r[i].base.investmentPeriod >= r[j].base.investmentPeriod
        else if sortBy == "Investment: Low to High" then r[i].base.minInvestment <= r[j].base.minInvestment
        else r[i].base.expectedReturn >= r[j].base.expectedReturn)
  {
    var found := Filter(investments, Searched(term));
    assert ConsistentOn(found, InvestmentOrder(sortBy));
    SortByIsSorted(found, InvestmentOrder(sortBy));
  }

  /** The list's own state: search term, sort choice and page. */
  datatype ListState = ListState(searchTerm: string, sortBy: string, currentPage: int)

  const InitialList := ListState("", "Returns", 1)

  function Sorted(st: ListState, investments: seq<ClientInvestment>): seq<ClientInvestment>
  {
    SortedInvestments(investments, st.searchTerm, st.sortBy)
  }

  function TotalPagesOf(st: ListState, investments: seq<ClientInvestment>): nat
  {
    TotalPages(|Sorted(st, investments)|, InvestmentsPerPage)
  }

  /** The investments on the current page. */
  function Shown(st: ListState, investments: seq<ClientInvestment>): seq<ClientInvestment>
  {
    Page(Sorted(st, investments), st.currentPage, InvestmentsPerPage)
  }

  /** Typing in the search box and choosing a sort set only their own field:
      the page stays where it was. */
  function SetSearchTerm(st: ListState, term: string): ListState
  {
    st.(searchTerm := term)
  }

  function SetSortBy(st: ListState, sortBy: string): ListState
  {
    st.(sortBy := sortBy)
  }

  /** Page p shows the window [3(p-1), 3p) of the sorted list, cut at its
      end, and the pages up to `totalPages` cover the list exactly. */
  lemma ShownSpec(st: ListState, investments: seq<ClientInvestment>)
    requires st.currentPage >= 1
    ensures var sorted := Sorted(st, investments);
      && ((st.currentPage - 1) * 3 < |sorted| ==>
          Shown(st, investments) == sorted[(st.currentPage - 1) * 3..Min(st.currentPage * 3, |sorted|)])
      && ((st.currentPage - 1) * 3 >= |sorted| ==> Shown(st, investments) == [])
      && Pages(sorted, TotalPagesOf(st, investments), 3) == sorted
  {
    PageWindow(Sorted(st, investments), st.currentPage, InvestmentsPerPage);
    PagesPartition(Sorted(st, investments), InvestmentsPerPage);
  }

  /** Because the search does not reset the page, a search that narrows the
      list below the page being viewed leaves that page empty. */
  lemma StalePageAfterSearch(st: ListState, investments: seq<ClientInvestment>, term: string)
    requires st.currentPage > TotalPagesOf(SetSearchTerm(st, term), investments)
    ensures SetSearchTerm(st, term).currentPage == st.currentPage
    ensures Shown(SetSearchTerm(st, term), investments) == []
  {
    PageBeyondEnd(Sorted(SetSearchTerm(st, term), investments), st.currentPage, InvestmentsPerPage);
  }

  /** A new sort order only reorders the found investments: the number of
      pages and the page being viewed stay the same. */
  lemma SortKeepsPages(st: ListState, investments: seq<ClientInvestment>, sortBy: string)
    ensures SetSortBy(st, sortBy).currentPage == st.currentPage
    ensures TotalPagesOf(SetSortBy(st, sortBy), investments) == TotalPagesOf(st, investments)
    ensures multiset(Sorted(SetSortBy(st, sortBy), investments)) == multiset(Sorted(st, investments))
  {
  }
}
