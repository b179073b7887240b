/** The state of the generic `DataTable` component: its page cursor, the page count of the
    last fetch, the debounced search term and the filter map. React's setters and effects
    become methods that update the fields; the fetch callback is a field. */
module DataTables {
  import opened Common
  import opened Listing

  /** `p => Math.max(1, p - 1)`. */
  function PreviousPage(p: int): (r: int)
    ensures r >= 1
    ensures p > 1 ==> r == p - 1
    ensures p <= 1 ==> r == 1
  {
    Max(1, p - 1)
  }

  /** `p => Math.min(totalPages, p + 1)`. */
  function NextPage(p: int, totalPages: int): (r: int)
    ensures r <= totalPages
    ensures p < totalPages ==> r == p + 1
    ensures p >= totalPages ==> r == totalPages
  {
    Min(totalPages, p + 1)
  }

  /** Starting on a page of `1..totalPages`, both buttons keep the cursor in that range, and
      going back after going forward returns to the starting page. */
  lemma CursorStaysInRange(p: int, totalPages: int)
    requires 1 <= p <= totalPages
    ensures 1 <= PreviousPage(p) <= totalPages
    ensures 1 <= NextPage(p, totalPages) <= totalPages
    ensures p < totalPages ==> PreviousPage(NextPage(p, totalPages)) == p
    ensures p > 1 ==> NextPage(PreviousPage(p), totalPages) == p
  {
  }

  /** The page shown after pressing "Next" `n` times from page `p`. */
  function PressNext(p: int, totalPages: int, n: nat): int
    decreases n
  {
    if n == 0 then p else PressNext(NextPage(p, totalPages), totalPages, n - 1)
  }

  /** Each press of "Next" advances exactly one page until the last, so from page 1 the
      pages `2..totalPages` are reached in turn. */
  lemma {:induction false} NextWalksEveryPage(p: int, totalPages: int, n: nat)
    requires 1 <= p && p + n <= totalPages
    ensures PressNext(p, totalPages, n) == p + n
    decreases n
  {
    if n > 0 {
      NextWalksEveryPage(p + 1, totalPages, n - 1);
    }
  }

  class DataTable<T> {
    const pageSize: nat
    /** `fetchData(page, pageSize, searchTerm, filters)`; `None` is a rejected promise. */
    const fetchData: (int, nat, string, map<string, string>) -> Option<FetchResult<T>>
    var data: seq<T>
    var currentPage: int
    var totalPages: int
    var searchTerm: string
    var filters: map<string, string>

    /** The cursor never drops below page 1. */
    ghost predicate Valid()
      reads this
    {
      currentPage >= 1
    }

    /** `useState(1)`, `useState(0)`, `useState('')`, `useState({})`. */
    constructor(fetchData: (int, nat, string, map<string, string>) -> Option<FetchResult<T>>, pageSize: nat)
      ensures Valid()
      ensures this.fetchData == fetchData && this.pageSize == pageSize
      ensures data == [] && currentPage == 1 && totalPages == 0 && searchTerm == "" && filters == map[]
    {
      this.fetchData := fetchData;
      this.pageSize := pageSize;
      data := [];
      currentPage := 1;
      totalPages := 0;
      searchTerm := "";
      filters := map[];
    }

    /** `totalPages > 1 && (…controls…)`. */
    predicate ControlsShown()
      reads this
    {
      totalPages > 1
    }

    predicate PreviousDisabled()
      reads this
    {
      currentPage == 1
    }

    predicate NextDisabled()
      reads this
    {
      currentPage == totalPages
    }

    /** A click on "Previous", which only exists while the controls are shown. */
    method Previous()
      requires Valid() && ControlsShown()
      modifies this
      ensures Valid()
      ensures currentPage == if old(PreviousDisabled()) then old(currentPage) else PreviousPage(old(currentPage))
      ensures currentPage < old(currentPage) || old(currentPage) == 1
      ensures data == old(data) && totalPages == old(totalPages)
      ensures searchTerm == old(searchTerm) && filters == old(filters)
    {
      if !PreviousDisabled() {
        currentPage := PreviousPage(currentPage);
      }
    }

    /** A click on "Next", which only exists while the controls are shown. */
    method Next()
      requires Valid() && ControlsShown()
      modifies this
      ensures Valid()
      ensures currentPage == if old(NextDisabled()) then old(currentPage) else NextPage(old(currentPage), totalPages)
      ensures currentPage <= totalPages
      ensures data == old(data) && totalPages == old(totalPages)
      ensures searchTerm == old(searchTerm) && filters == old(filters)
    {
      if !NextDisabled() {
        currentPage := NextPage(currentPage, totalPages);
      }
    }

    /** `handleFilterChange(key, value)` sets one entry of a fresh filter object, and the
        reset effect then runs because the object changed. */
    method HandleFilterChange(key: string, value: string)
      requires Valid()
      modifies this
      ensures Valid()
      ensures filters == old(filters)[key := value]
      ensures forall k :: k in old(filters) && k != key ==> k in filters && filters[k] == old(filters)[k]
      ensures currentPage == 1
      ensures data == old(data) && totalPages == old(totalPages) && searchTerm == old(searchTerm)
    {
      filters := filters[key := value];
      currentPage := 1;
    }

    /** A new debounced search term; the reset effect runs when the term differs. */
    method SearchTermSettled(term: string)
      requires Valid()
      modifies this
      ensures Valid()
      ensures searchTerm == term
      ensures currentPage == if term != old(searchTerm) then 1 else old(currentPage)
      ensures data == old(data) && totalPages == old(totalPages) && filters == old(filters)
    {
      if term != searchTerm {
        searchTerm := term;
        currentPage := 1;
      }
    }

    /** The fetch effect: on success the table shows the fetched page and its page count; a
        rejected fetch is caught and leaves both as they were. */
    method LoadData()
      requires Valid()
      modifies this
      ensures Valid()
      ensures var result := fetchData(old(currentPage), pageSize, old(searchTerm), old(filters));
        && (result.Some? ==> data == result.value.data && totalPages == result.value.totalPages)
        && (result.None? ==> data == old(data) && totalPages == old(totalPages))
      ensures currentPage == old(currentPage) && searchTerm == old(searchTerm) && filters == old(filters)
    {
      var result := fetchData(currentPage, pageSize, searchTerm, filters);
      if result.Some? {
        data := result.value.data;
        totalPages := result.value.totalPages;
      }
    }
  }
}
