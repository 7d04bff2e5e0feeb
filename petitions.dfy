/**
 * The petition search page: the filter state it keeps, the query it sends for the
 * current page, the cost filter input and the number of result pages.
 */
module Petitions {
  import opened Js
  import opened ResponseBodies
  import opened Api

  /** `Math.ceil(count / pageSize)`: the fewest pages of `pageSize` that hold `count` results. */
  function PageCount(count: nat, pageSize: nat): (pages: nat)
    requires pageSize > 0
    ensures pages * pageSize >= count
    ensures pages == 0 || (pages - 1) * pageSize < count
  {
    (count + pageSize - 1) / pageSize
  }

  /** The page count is the least number of pages that covers the results. */
  lemma PageCountIsLeast(count: nat, pageSize: nat, pages: nat)
    requires pageSize > 0 && pages * pageSize >= count
    ensures PageCount(count, pageSize) <= pages
  {
  }

  class PetitionsPage {
    var searchQuery: string
    var selectedCategories: seq<int>
    var selectedCost: TierCost
    var selectedSortOrder: SortOrder
    var pageNumber: int
    const pageSize: nat
    var numberSearchResults: nat

    /** The initial filters: nothing searched or selected, oldest first, page 1 of 9 petitions. */
    constructor ()
      ensures searchQuery == "" && selectedCategories == [] && selectedCost == BlankCost
      ensures selectedSortOrder == CreatedAsc && pageNumber == 1 && pageSize == 9
      ensures numberSearchResults == 0
    {
      searchQuery := "";
      selectedCategories := [];
      selectedCost := BlankCost;
      selectedSortOrder := CreatedAsc;
      pageNumber := 1;
      pageSize := 9;
      numberSearchResults := 0;
    }

    /**
     * `buildQueryParams`: the search text, the categories and the cost go in only when
     * set (a cost of 0 is set); the page window and the sort order always go in.
     */
    method BuildQueryParams() returns (params: FilterParams)
      ensures params.q.Some? <==> |searchQuery| > 0
      ensures params.q.Some? ==> params.q.value == searchQuery
      ensures params.categoryIds.Some? <==> |selectedCategories| > 0
      ensures params.categoryIds.Some? ==> params.categoryIds.value == selectedCategories
      ensures params.supportingCost.Some? <==> selectedCost.Cost?
      ensures params.supportingCost.Some? ==> params.supportingCost.value == selectedCost.amount
      ensures params.startIndex == Some((pageNumber - 1) * pageSize)
      ensures params.count == Some(pageSize as int)
      ensures params.sortBy == Some(selectedSortOrder)
      ensures params.ownerId.None? && params.supporterId.None?
    {
      params := NoFilters;
      if |searchQuery| > 0 {
        params := params.(q := Some(searchQuery));
      }
      if |selectedCategories| > 0 {
        params := params.(categoryIds := Some(selectedCategories));
      }
      if selectedCost != BlankCost {
        params := params.(supportingCost := Some(selectedCost.amount));
      }
      params := params.(startIndex := Some((pageNumber - 1) * pageSize));
      params := params.(count := Some(pageSize as int));
      params := params.(sortBy := Some(selectedSortOrder));
    }

    /**
     * `handleCostFilterChange`: the empty text clears the cost, a numeric text (as
     * `Number` reads it, passed in as `toNumber`) sets it, and anything else is ignored.
     */
    method HandleCostFilterChange(text: string, toNumber: string -> Number)
      modifies this
      ensures text == "" ==> selectedCost == BlankCost
      ensures text != "" && toNumber(text).Num? ==> selectedCost == Cost(toNumber(text).value)
      ensures text != "" && toNumber(text).NaN? ==> selectedCost == old(selectedCost)
      ensures searchQuery == old(searchQuery) && selectedCategories == old(selectedCategories)
      ensures selectedSortOrder == old(selectedSortOrder) && pageNumber == old(pageNumber)
      ensures numberSearchResults == old(numberSearchResults)
    {
      var number := toNumber(text);
      if text == "" {
        selectedCost := BlankCost;
      } else if !IsNaN(number) {
        selectedCost := Cost(number.value);
      }
    }

    /** The pagination control's page count. */
    function Pages(): (pages: nat)
      reads this
      requires pageSize > 0
      ensures pages * pageSize >= numberSearchResults
    {
      PageCount(numberSearchResults, pageSize)
    }
  }

  /** A query for the first page with only a cost of 0 set still sends the cost. */
  method ZeroCostIsSent() returns (params: FilterParams)
    ensures params.supportingCost == Some(0.0) && params.q.None? && params.categoryIds.None?
    ensures params.startIndex == Some(0) && params.count == Some(9)
  {
    var page := new PetitionsPage();
    page.HandleCostFilterChange("0", (s: string) => if s == "0" then Num(0.0) else NaN);
    params := page.BuildQueryParams();
  }
}
