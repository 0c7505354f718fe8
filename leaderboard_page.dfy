/**
 * The leaderboard page's state and its list pipeline
 * (frontend-next/app/leaderboard/LeaderboardPage.tsx): the page keeps a search
 * query, a reputation floor, a time range, a sort field and order, and a current
 * page. From these it derives `filteredAgents` (search filter, reputation floor,
 * stable sort), the page count, the 25-record page on show, and the top-three
 * podium. Header clicks toggle the sort and the Prev/Next buttons move the page.
 */
module LeaderboardPage {
  import opened AgentTypes
  import opened JsSemantics
  import opened StableSort
  import opened AgentOrder

  const ItemsPerPage := 25
  const PodiumSize := 3

  // ---------------------------------------------------------------------------
  // Filtering

  /** The search test: the lower-cased name or the lower-cased address includes the lower-cased query. */
  predicate MatchesQuery(a: Agent, query: string) {
    var q := ToLower(query);
    Includes(ToLower(a.name), q) || Includes(ToLower(a.address), q)
  }

  /** The reputation test: at least the slider value times 100. */
  predicate MeetsFloor(a: Agent, minReputation: int) {
    a.reputation >= minReputation * 100
  }

  /** The search callback, as the function value handed to `filter`. */
  function QueryTest(query: string): Agent -> bool {
    a => MatchesQuery(a, query)
  }

  /** The reputation callback, as the function value handed to `filter`. */
  function FloorTest(minReputation: int): Agent -> bool {
    a => MeetsFloor(a, minReputation)
  }

  /** `result.filter(agent => ...includes(query))`. */
  function SearchFilter(agents: seq<Agent>, query: string): seq<Agent> {
    Filter(agents, QueryTest(query))
  }

  /** `result.filter(agent => agent.reputation >= minReputation * 100)`. */
  function FloorFilter(agents: seq<Agent>, minReputation: int): seq<Agent> {
    Filter(agents, FloorTest(minReputation))
  }

  /** The search step: skipped when the query is empty. */
  function SearchStep(agents: seq<Agent>, query: string): seq<Agent> {
    if query != "" then SearchFilter(agents, query) else agents
  }

  /** The floor step: skipped unless the slider is above 0. */
  function FloorStep(agents: seq<Agent>, minReputation: int): seq<Agent> {
    if minReputation > 0 then FloorFilter(agents, minReputation) else agents
  }

  /** The memoised `filteredAgents`: search, then floor, then the stable sort. */
  function FilteredAgents(agents: seq<Agent>, query: string, minReputation: int,
                          field: SortField, order: SortOrder): seq<Agent>
  {
    SortSeq(FloorStep(SearchStep(agents, query), minReputation), SortComparator(field, order))
  }

  /** Whether a record survives both filter steps. */
  predicate Kept(a: Agent, query: string, minReputation: int) {
    MatchesQuery(a, query) && (minReputation > 0 ==> MeetsFloor(a, minReputation))
  }

  /** The empty query matches every record, so skipping the search step loses nothing. */
  lemma EmptyQueryMatches(a: Agent)
    ensures MatchesQuery(a, "")
  {
    assert ToLower("") == "";
    IncludesEmpty(ToLower(a.name));
  }

  lemma FilterStepsKeepExactly(agents: seq<Agent>, query: string, minReputation: int)
    ensures var f := FloorStep(SearchStep(agents, query), minReputation);
      forall x :: multiset(f)[x] == if Kept(x, query, minReputation) then multiset(agents)[x] else 0
  {
    forall x | query == ""
      ensures MatchesQuery(x, query)
    {
      EmptyQueryMatches(x);
    }
    var searched := SearchStep(agents, query);
    if query != "" {
      FilterCounts(agents, QueryTest(query));
    }
    if minReputation > 0 {
      FilterCounts(searched, FloorTest(minReputation));
    }
  }

  /**
   * The filters keep exactly the records that match the query and clear the floor,
   * each as often as it occurs in the input, and nothing else.
   */
  lemma FilteredKeepsExactly(agents: seq<Agent>, query: string, minReputation: int,
                             field: SortField, order: SortOrder)
    ensures var r := FilteredAgents(agents, query, minReputation, field, order);
      forall x :: multiset(r)[x] == if Kept(x, query, minReputation) then multiset(agents)[x] else 0
    ensures forall x :: x in FilteredAgents(agents, query, minReputation, field, order) ==>
      x in agents && MatchesQuery(x, query) && (minReputation > 0 ==> MeetsFloor(x, minReputation))
  {
    var r := FilteredAgents(agents, query, minReputation, field, order);
    FilterStepsKeepExactly(agents, query, minReputation);
    SortPermutation(FloorStep(SearchStep(agents, query), minReputation), SortComparator(field, order));
    forall x | x in r
      ensures x in agents && Kept(x, query, minReputation)
    {
      assert x in multiset(r);
    }
  }

  /** With no query and the slider at 0, the pipeline only reorders: no record is dropped or added. */
  lemma UnfilteredIsPermutation(agents: seq<Agent>, field: SortField, order: SortOrder)
    ensures FilteredAgents(agents, "", 0, field, order) == SortSeq(agents, SortComparator(field, order))
    ensures multiset(FilteredAgents(agents, "", 0, field, order)) == multiset(agents)
  {
    SortPermutation(agents, SortComparator(field, order));
  }

  // ---------------------------------------------------------------------------
  // Order of the result

  /**
   * The result is ordered by the selected key: numerically non-increasing for `desc`,
   * non-decreasing for `asc`; and sorting it again changes nothing.
   */
  lemma FilteredOrdered(agents: seq<Agent>, query: string, minReputation: int,
                        field: SortField, order: SortOrder)
    ensures Sorted(FilteredAgents(agents, query, minReputation, field, order), SortComparator(field, order))
    ensures var r := FilteredAgents(agents, query, minReputation, field, order);
      field != Name && order == Desc ==> forall i, j :: 0 <= i < j < |r| ==> Key(field, r[i]) >= Key(field, r[j])
    ensures var r := FilteredAgents(agents, query, minReputation, field, order);
      field != Name && order == Asc ==> forall i, j :: 0 <= i < j < |r| ==> Key(field, r[i]) <= Key(field, r[j])
    ensures var r := FilteredAgents(agents, query, minReputation, field, order);
      SortSeq(r, SortComparator(field, order)) == r
  {
    var cmp := SortComparator(field, order);
    var r := FilteredAgents(agents, query, minReputation, field, order);
    ComparatorIsPreorder(field, order);
    SortSorted(FloorStep(SearchStep(agents, query), minReputation), cmp);
    if field != Name {
      SortedByKey(r, field, order);
    }
    SortOfSorted(r, cmp);
  }

  /** Records that tie on the sort key keep the order they had after filtering. */
  lemma FilteredStable(agents: seq<Agent>, query: string, minReputation: int,
                       field: SortField, order: SortOrder, y: Agent)
    ensures var cmp := SortComparator(field, order);
      Ties(FilteredAgents(agents, query, minReputation, field, order), cmp, y)
        == Ties(FloorStep(SearchStep(agents, query), minReputation), cmp, y)
  {
    ComparatorIsPreorder(field, order);
    SortStable(FloorStep(SearchStep(agents, query), minReputation), SortComparator(field, order), y);
  }

  /** When no two kept records tie on the field, switching between `asc` and `desc` reverses the list. */
  lemma ToggleOrderReverses(agents: seq<Agent>, query: string, minReputation: int, field: SortField)
    requires NoTies(FloorStep(SearchStep(agents, query), minReputation), SortComparator(field, Asc))
    ensures FilteredAgents(agents, query, minReputation, field, Asc)
         == Reverse(FilteredAgents(agents, query, minReputation, field, Desc))
  {
    ComparatorIsPreorder(field, Asc);
    ComparatorIsPreorder(field, Desc);
    DescNegatesAsc(field);
    SortNegatedReverses(FloorStep(SearchStep(agents, query), minReputation),
                        SortComparator(field, Asc), SortComparator(field, Desc));
  }

  // ---------------------------------------------------------------------------
  // Pagination and the podium

  /** `Math.ceil(count / itemsPerPage)`. */
  function TotalPages(count: nat): (pages: nat)
    ensures count <= pages * ItemsPerPage
    ensures pages == 0 || (pages - 1) * ItemsPerPage < count
    ensures pages == 0 <==> count == 0
  {
    (count + ItemsPerPage - 1) / ItemsPerPage
  }

  /** `filteredAgents.slice((page - 1) * itemsPerPage, page * itemsPerPage)`. */
  function PageOf(s: seq<Agent>, page: int): seq<Agent> {
    Slice(s, (page - 1) * ItemsPerPage, page * ItemsPerPage)
  }

  /**
   * Page `page` (from 1) is the window of at most 25 records starting at
   * `(page - 1) * 25`; every page up to the last one is non-empty.
   */
  lemma PageWindow(s: seq<Agent>, page: int)
    requires page >= 1
    ensures PageOf(s, page) == s[Min((page - 1) * ItemsPerPage, |s|)..Min(page * ItemsPerPage, |s|)]
    ensures |PageOf(s, page)| <= ItemsPerPage
    ensures page <= TotalPages(|s|) ==> |PageOf(s, page)| >= 1
  {
  }

  /** A page past the last one, or page 0, is empty rather than an error. */
  lemma PageBeyondLastIsEmpty(s: seq<Agent>, page: int)
    requires page > TotalPages(|s|) || page == 0
    ensures PageOf(s, page) == []
  {
  }

  /** Pages 1 to `k`, one after the other. */
  function Pages(s: seq<Agent>, k: nat): seq<Agent> {
    if k == 0 then [] else Pages(s, k - 1) + PageOf(s, k)
  }

  lemma {:induction false} PagesArePrefix(s: seq<Agent>, k: nat)
    ensures Pages(s, k) == s[..Min(k * ItemsPerPage, |s|)]
  {
    if k > 0 {
      PagesArePrefix(s, k - 1);
      PageWindow(s, k);
      var lo, hi := Min((k - 1) * ItemsPerPage, |s|), Min(k * ItemsPerPage, |s|);
      assert s[..lo] + s[lo..hi] == s[..hi];
    }
  }

  /** Reading pages 1 to `TotalPages` in turn gives back the whole list. */
  lemma PagesReassemble(s: seq<Agent>)
    ensures Pages(s, TotalPages(|s|)) == s
  {
    PagesArePrefix(s, TotalPages(|s|));
  }

  /** `filteredAgents.slice(0, 3)`: the first three records, or all of them when there are fewer. */
  function TopThree(s: seq<Agent>): (podium: seq<Agent>)
    ensures |podium| == Min(PodiumSize, |s|)
    ensures podium == s[..|podium|]
  {
    Slice(s, 0, PodiumSize)
  }

  // ---------------------------------------------------------------------------
  // Sort toggling and page moves

  function Flipped(order: SortOrder): SortOrder {
    if order == Asc then Desc else Asc
  }

  /**
   * `handleSort`: a click on the active field flips the order; a click on another
   * field selects it, descending. The result's field is always the clicked one.
   */
  function NextSort(activeField: SortField, activeOrder: SortOrder, clicked: SortField): (next: (SortField, SortOrder))
    ensures next.0 == clicked
    ensures next.1 == Asc <==> clicked == activeField && activeOrder == Desc
  {
    if clicked == activeField then (activeField, Flipped(activeOrder)) else (clicked, Desc)
  }

  /** Clicking the active field twice restores the sort. */
  lemma ClickTwiceRestores(field: SortField, order: SortOrder)
    ensures var once := NextSort(field, order, field);
      NextSort(once.0, once.1, field) == (field, order)
  {
  }

  /** Clicking a new field and then clicking it again sorts by it ascending. */
  lemma NewFieldThenAscending(activeField: SortField, activeOrder: SortOrder, clicked: SortField)
    requires clicked != activeField
    ensures var once := NextSort(activeField, activeOrder, clicked);
      NextSort(once.0, once.1, clicked) == (clicked, Asc)
  {
  }

  /** `Math.max(1, p - 1)`, the Prev button. */
  function PrevPage(page: int): (p: int)
    ensures p >= 1
    ensures page > 1 ==> p == page - 1
    ensures page <= 1 ==> p == 1
  {
    Max(1, page - 1)
  }

  /** `Math.min(totalPages, p + 1)`, the Next button. */
  function NextPage(page: int, totalPages: int): (p: int)
    ensures p <= totalPages
    ensures page < totalPages ==> p == page + 1
    ensures page >= totalPages ==> p == totalPages
  {
    Min(totalPages, page + 1)
  }

  /** Starting from a page in [1, totalPages], Prev and Next stay in that range. */
  lemma PagingStaysInRange(page: int, totalPages: int)
    requires 1 <= page <= totalPages
    ensures 1 <= PrevPage(page) <= totalPages
    ensures 1 <= NextPage(page, totalPages) <= totalPages
  {
  }

  // ---------------------------------------------------------------------------
  // The page's state

  class PageState {
    var searchQuery: string
    var minReputation: int
    var timeRange: TimeRange
    var sortField: SortField
    var sortOrder: SortOrder
    var currentPage: int

    /** The initial state: no query, slider at 0, all time, reputation descending, page 1. */
    constructor ()
      ensures searchQuery == "" && minReputation == 0 && timeRange == AllTime
      ensures sortField == Reputation && sortOrder == Desc && currentPage == 1
    {
      searchQuery := "";
      minReputation := 0;
      timeRange := AllTime;
      sortField := Reputation;
      sortOrder := Desc;
      currentPage := 1;
    }

    /** Typing in the search box; the current page is kept as it is. */
    method SetSearchQuery(query: string)
      modifies this
      ensures searchQuery == query
      ensures minReputation == old(minReputation) && timeRange == old(timeRange)
      ensures sortField == old(sortField) && sortOrder == old(sortOrder) && currentPage == old(currentPage)
    {
      searchQuery := query;
    }

    /** Moving the reputation slider; the current page is kept as it is. */
    method SetMinReputation(value: int)
      modifies this
      ensures minReputation == value
      ensures searchQuery == old(searchQuery) && timeRange == old(timeRange)
      ensures sortField == old(sortField) && sortOrder == old(sortOrder) && currentPage == old(currentPage)
    {
      minReputation := value;
    }

    /** Choosing a time range: stored, and read by nothing else. */
    method SetTimeRange(range: TimeRange)
      modifies this
      ensures timeRange == range
      ensures searchQuery == old(searchQuery) && minReputation == old(minReputation)
      ensures sortField == old(sortField) && sortOrder == old(sortOrder) && currentPage == old(currentPage)
    {
      timeRange := range;
    }

    /** `handleSort`: toggle or switch the sort, and go back to page 1. */
    method HandleSort(field: SortField)
      modifies this
      ensures (sortField, sortOrder) == NextSort(old(sortField), old(sortOrder), field)
      ensures currentPage == 1
      ensures searchQuery == old(searchQuery) && minReputation == old(minReputation)
      ensures timeRange == old(timeRange)
    {
      if sortField == field {
        sortOrder := if sortOrder == Asc then Desc else Asc;
      } else {
        sortField := field;
        sortOrder := Desc;
      }
      currentPage := 1;
    }

    /** The Prev button. */
    method Prev()
      modifies this
      ensures currentPage == PrevPage(old(currentPage))
      ensures searchQuery == old(searchQuery) && minReputation == old(minReputation)
      ensures timeRange == old(timeRange) && sortField == old(sortField) && sortOrder == old(sortOrder)
    {
      currentPage := if currentPage - 1 > 1 then currentPage - 1 else 1;
    }

    /** The Next button: it stops at the page count of the list the page currently shows. */
    method Next(agents: seq<Agent>)
      modifies this
      ensures currentPage == NextPage(old(currentPage),
        TotalPages(|FilteredAgents(agents, searchQuery, minReputation, sortField, sortOrder)|))
      ensures searchQuery == old(searchQuery) && minReputation == old(minReputation)
      ensures timeRange == old(timeRange) && sortField == old(sortField) && sortOrder == old(sortOrder)
    {
      var filtered := ComputeFilteredAgents(agents);
      var totalPages := TotalPages(|filtered|);
      currentPage := if totalPages < currentPage + 1 then totalPages else currentPage + 1;
    }

    /**
     * The body of the `useMemo`: copy the list, filter it by the query and by the
     * floor when those are set, then sort the array in place.
     */
    method ComputeFilteredAgents(agents: seq<Agent>) returns (result: seq<Agent>)
      ensures result == FilteredAgents(agents, searchQuery, minReputation, sortField, sortOrder)
    {
      var filtered := agents;
      if searchQuery != "" {
        filtered := SearchFilter(filtered, searchQuery);
      }
      if minReputation > 0 {
        filtered := FloorFilter(filtered, minReputation);
      }
      var a := new Agent[|filtered|](i requires 0 <= i < |filtered| => filtered[i]);
      assert a[..] == filtered;
      SortInPlace(a, SortComparator(sortField, sortOrder));
      result := a[..];
    }

    /** What the page shows: the current page of records, the page count and the podium. */
    method View(agents: seq<Agent>) returns (page: seq<Agent>, totalPages: nat, podium: seq<Agent>)
      ensures var filtered := FilteredAgents(agents, searchQuery, minReputation, sortField, sortOrder);
        && page == PageOf(filtered, currentPage)
        && totalPages == TotalPages(|filtered|)
        && podium == TopThree(filtered)
    {
      var filtered := ComputeFilteredAgents(agents);
      totalPages := TotalPages(|filtered|);
      page := PageOf(filtered, currentPage);
      podium := TopThree(filtered);
    }
  }
}
