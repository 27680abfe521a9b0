/**
 * The supplier list page: pagination and sorting state, the request it
 * derives for `suppliers.list`, the "Showing from-to of total" range and
 * the Prev/Next controls.
 */
module SuppliersList {
  import opened Wrappers

  const DefaultPageSize: int := 20
  const PageSizeOptions: seq<int> := [10, 20, 50, 100]
  const DefaultFailureMessage: string := "Failed to load suppliers"

  datatype SortKey = Name | ProductCount | SoldQty | Revenue
  datatype SortDir = Asc | Desc

  /** One entry of the table's sorting state. */
  datatype SortRule = SortRule(id: SortKey, desc: bool)

  /** The argument of `suppliers.list`; an absent search is `None`. */
  datatype ListRequest = ListRequest(limit: int, offset: int, search: Option<string>, sortBy: SortKey, sortDir: SortDir)

  datatype FetchState = Loading | Failed(message: string) | Ready

  /** `Math.ceil(total / pageSize)` on non-negative integers. */
  function CeilDiv(total: nat, pageSize: int): (r: nat)
    requires pageSize > 0
    ensures (r == 0) == (total == 0)
    ensures r > 0 ==> (r - 1) * pageSize < total <= r * pageSize
  {
    if total % pageSize == 0 then total / pageSize else total / pageSize + 1
  }

  /** The number of pages shown in "Page n of m". */
  function PageCount(total: nat, pageSize: int): (r: int)
    requires pageSize > 0
    ensures r >= 1
    ensures total > 0 ==> (r - 1) * pageSize < total <= r * pageSize
  {
    var pages := CeilDiv(total, pageSize);
    if pages < 1 then 1 else pages
  }

  /** The 1-based position of the first row on the page, 0 when there are none. */
  function From(total: nat, pageIndex: nat, pageSize: int): (r: int)
    requires pageSize > 0
    ensures r == 0 <==> total == 0
    ensures total > 0 ==> r - 1 == pageIndex * pageSize
  {
    if total == 0 then 0 else pageIndex * pageSize + 1
  }

  /** The 1-based position of the last row on the page: the page's end, cut off at the last row. */
  function To(total: nat, pageIndex: nat, pageSize: int): (r: int)
    requires pageSize > 0
    ensures r <= total && r <= (pageIndex + 1) * pageSize
    ensures r == total || r == (pageIndex + 1) * pageSize
  {
    var end := (pageIndex + 1) * pageSize;
    if total < end then total else end
  }

  lemma MulMonotone(a: int, b: int, c: int)
    requires a <= b && c >= 0
    ensures a * c <= b * c
  {
  }

  /**
   * The "Showing from-to of total" range: empty as 0-0, otherwise a
   * non-empty run of rows inside 1..total, at most a page long.
   */
  lemma ShownRange(total: nat, pageIndex: nat, pageSize: int)
    requires pageSize > 0
    ensures total == 0 ==> From(total, pageIndex, pageSize) == 0 && To(total, pageIndex, pageSize) == 0
    ensures total > 0 && pageIndex < PageCount(total, pageSize) ==>
      var from, to := From(total, pageIndex, pageSize), To(total, pageIndex, pageSize);
      1 <= from <= to <= total && to - from + 1 <= pageSize
  {
    var count := PageCount(total, pageSize);
    assert (pageIndex + 1) * pageSize == pageIndex * pageSize + pageSize;
    MulMonotone(0, pageIndex, pageSize);
    if total > 0 && pageIndex < count {
      MulMonotone(pageIndex, count - 1, pageSize);
    }
  }

  /** Consecutive full pages tile the rows: page p + 1 starts right after page p ends. */
  lemma PagesTile(total: nat, pageIndex: nat, pageSize: int)
    requires pageSize > 0
    requires (pageIndex + 1) * pageSize < total
    ensures From(total, pageIndex + 1, pageSize) == To(total, pageIndex, pageSize) + 1
    ensures To(total, pageIndex, pageSize) - From(total, pageIndex, pageSize) + 1 == pageSize
  {
    assert (pageIndex + 1) * pageSize == pageIndex * pageSize + pageSize;
  }

  /** The sorting that `setSort(key)` installs in place of `prev`. */
  function NextSorting(prev: seq<SortRule>, key: SortKey): (r: seq<SortRule>)
    ensures |r| == 1 && r[0].id == key
    ensures prev != [] && prev[0].id == key ==> r[0].desc == !prev[0].desc
    ensures (prev == [] || prev[0].id != key) ==> (r[0].desc <==> key == Revenue || key == SoldQty)
  {
    if prev != [] && prev[0].id == key then [SortRule(key, !prev[0].desc)]
    else [SortRule(key, key == Revenue || key == SoldQty)]
  }

  /** Clicking the same column twice restores the direction it had. */
  lemma SortTwiceRestores(key: SortKey, desc: bool)
    ensures NextSorting(NextSorting([SortRule(key, desc)], key), key) == [SortRule(key, desc)]
  {
  }

  /**
   * The request `fetchData` sends: a page of `pageSize` rows starting at
   * `pageIndex * pageSize`, no search when the settled text is empty, and the
   * first sort entry (by revenue, ascending, when there is none).
   */
  function RequestFor(pageIndex: nat, pageSize: int, sorting: seq<SortRule>, debouncedSearch: string): (r: ListRequest)
    ensures r.limit == pageSize && r.offset == pageIndex * pageSize
    ensures r.search.None? <==> debouncedSearch == ""
    ensures r.search.Some? ==> r.search.value == debouncedSearch
    ensures sorting == [] ==> r.sortBy == Revenue && r.sortDir == Asc
    ensures sorting != [] ==> r.sortBy == sorting[0].id && (r.sortDir == Desc <==> sorting[0].desc)
  {
    var sortBy := if sorting == [] then Revenue else sorting[0].id;
    var sortDir := if sorting != [] && sorting[0].desc then Desc else Asc;
    ListRequest(pageSize, pageIndex * pageSize, if debouncedSearch == "" then None else Some(debouncedSearch), sortBy, sortDir)
  }

  /** The rows a request asks for are exactly the rows the range label announces. */
  lemma RequestMatchesShownRange(total: nat, pageIndex: nat, pageSize: int, sorting: seq<SortRule>, search: string)
    requires pageSize > 0
    requires total > 0 && pageIndex < PageCount(total, pageSize)
    ensures var req := RequestFor(pageIndex, pageSize, sorting, search);
      && req.offset + 1 == From(total, pageIndex, pageSize)
      && To(total, pageIndex, pageSize) == (if total < req.offset + req.limit then total else req.offset + req.limit)
  {
    assert (pageIndex + 1) * pageSize == pageIndex * pageSize + pageSize;
  }

  /** The view state of the page. */
  class SuppliersPage {
    var pageIndex: nat
    var pageSize: int
    var sorting: seq<SortRule>
    /** The text in the search box. */
    var search: string
    /** The search text once the debounce delay has passed; the request uses this one. */
    var debouncedSearch: string
    var total: nat
    var fetchState: FetchState

    ghost predicate Valid()
      reads this
    {
      pageSize in PageSizeOptions && |sorting| == 1
    }

    constructor ()
      ensures Valid()
      ensures pageIndex == 0 && pageSize == DefaultPageSize
      ensures sorting == [SortRule(Revenue, true)]
      ensures search == "" && debouncedSearch == "" && total == 0 && fetchState == Loading
    {
      pageIndex := 0;
      pageSize := DefaultPageSize;
      sorting := [SortRule(Revenue, true)];
      search := "";
      debouncedSearch := "";
      total := 0;
      fetchState := Loading;
    }

    function PageCountNow(): int
      reads this
      requires Valid()
    {
      PageCount(total, pageSize)
    }

    function Request(): ListRequest
      reads this
    {
      RequestFor(pageIndex, pageSize, sorting, debouncedSearch)
    }

    /** Prev is disabled while loading, and otherwise exactly when no row precedes the page. */
    predicate PrevDisabled()
      reads this
      requires Valid()
      ensures fetchState != Loading ==> (PrevDisabled() <==> pageIndex * pageSize == 0)
    {
      pageIndex == 0 || fetchState == Loading
    }

    /** Next is disabled while loading, and otherwise exactly when no row follows the page. */
    predicate NextDisabled()
      reads this
      requires Valid()
      ensures fetchState != Loading ==> (NextDisabled() <==> total <= (pageIndex + 1) * pageSize)
    {
      pageIndex + 1 >= PageCountNow() || fetchState == Loading || total == 0
    }

    /** The column header click: same key flips the direction, a new key takes its default. */
    method SetSort(key: SortKey)
      requires Valid()
      modifies this`sorting, this`pageIndex
      ensures Valid()
      ensures sorting == NextSorting(old(sorting), key) && pageIndex == 0
    {
      sorting := NextSorting(sorting, key);
      pageIndex := 0;
    }

    method Prev()
      requires Valid()
      modifies this`pageIndex
      ensures Valid()
      ensures pageIndex == if old(pageIndex) == 0 then 0 else old(pageIndex) - 1
      ensures !old(PrevDisabled()) ==> pageIndex + 1 == old(pageIndex)
    {
      pageIndex := if pageIndex - 1 > 0 then pageIndex - 1 else 0;
    }

    method Next()
      requires Valid()
      modifies this`pageIndex
      ensures Valid()
      ensures pageIndex < PageCountNow()
      ensures pageIndex == if old(pageIndex) + 1 < PageCountNow() then old(pageIndex) + 1 else PageCountNow() - 1
      ensures !old(NextDisabled()) ==> pageIndex == old(pageIndex) + 1
    {
      var count := PageCountNow();
      pageIndex := if pageIndex + 1 < count - 1 then pageIndex + 1 else count - 1;
    }

    /** Typing in either search box: the text changes and the page goes back to the first. */
    method SetSearch(text: string)
      requires Valid()
      modifies this`search, this`pageIndex
      ensures Valid()
      ensures search == text && pageIndex == 0
      ensures sorting == old(sorting) && pageSize == old(pageSize)
    {
      pageIndex := 0;
      search := text;
    }

    /** The debounce timer firing: the typed text becomes the searched text. */
    method DebounceElapsed()
      requires Valid()
      modifies this`debouncedSearch
      ensures Valid()
      ensures debouncedSearch == search
    {
      debouncedSearch := search;
    }

    /** The rows-per-page select. */
    method SetPageSize(size: int)
      requires Valid()
      requires size in PageSizeOptions
      modifies this`pageSize, this`pageIndex
      ensures Valid()
      ensures pageSize == size && pageIndex == 0 && sorting == old(sorting)
    {
      pageIndex, pageSize := 0, size;
    }

    /** The start of `fetchData`: the page goes to loading and the request is sent. */
    method BeginFetch() returns (req: ListRequest)
      requires Valid()
      modifies this`fetchState
      ensures Valid()
      ensures fetchState == Loading && req == Request()
      ensures req.limit == pageSize && req.offset == pageIndex * pageSize
    {
      fetchState := Loading;
      req := Request();
    }

    /** The end of `fetchData`: the response's total, or the error's message. */
    method EndFetch(response: Result<nat, Option<string>>)
      requires Valid()
      modifies this`fetchState, this`total
      ensures Valid()
      ensures response.Success? ==> fetchState == Ready && total == response.value
      ensures response.Failure? ==> total == old(total)
      ensures response.Failure? ==>
        fetchState == Failed(if response.error.Some? then response.error.value else DefaultFailureMessage)
    {
      match response {
        case Success(count) =>
          total := count;
          fetchState := Ready;
        case Failure(message) =>
          fetchState := Failed(if message.Some? then message.value else DefaultFailureMessage);
      }
    }
  }

  /** The first request of a freshly opened page. */
  method FirstRequest() returns (req: ListRequest)
    ensures req == ListRequest(DefaultPageSize, 0, None, Revenue, Desc)
  {
    var page := new SuppliersPage();
    req := page.BeginFetch();
  }
}
