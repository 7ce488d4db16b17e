/**
 * The state of the events page: the fetched events, the two filter inputs
 * and the current page number, with the handlers that change them.  The
 * rows on screen are derived from that state by the filter and the pager.
 */
module EventsPage {
  import opened EventFilter
  import opened Pagination

  class EventsView {
    var events: seq<UiEvent>
    var search: string
    var dateFilter: string
    var currentPage: int

    /** The page number never drops below 1. */
    ghost predicate Valid()
      reads this
    {
      currentPage >= 1
    }

    /**
     * `filteredEvents`: an order-preserving subsequence of the events, and
     * all of them while both filters are empty.
     */
    function Filtered(): (r: seq<UiEvent>)
      reads this
      ensures IsSubsequence(r, events)
      ensures search == "" && dateFilter == "" ==> r == events
    {
      FilterIsSubsequence(events, search, dateFilter);
      FilterNoCriteria(events);
      Filter(events, search, dateFilter)
    }

    /** `totalPages`: the fewest ten-row pages that hold the filtered events. */
    function PageCount(): (r: nat)
      reads this
      ensures |Filtered()| <= PageSize * r < |Filtered()| + PageSize
    {
      TotalPages(|Filtered()|)
    }

    /**
     * `paginatedEvents`: the rows on screen, at most ten, taken from the
     * filtered events starting at row `(currentPage - 1) * 10`, and some
     * rows exactly while the page is one of 1..totalPages.
     */
    function Paginated(): (r: seq<UiEvent>)
      reads this
      ensures |r| <= PageSize
      ensures currentPage >= 1 ==>
        r == Filtered()[Min((currentPage - 1) * PageSize, |Filtered()|)..Min(currentPage * PageSize, |Filtered()|)]
      ensures currentPage >= 1 ==> (r != [] <==> currentPage <= PageCount())
    {
      if currentPage >= 1 then
        PageWindow(Filtered(), currentPage);
        Page(Filtered(), currentPage)
      else
        Page(Filtered(), currentPage)
    }

    /** The page lies within 1..max(totalPages, 1). */
    predicate InRange()
      reads this
    {
      1 <= currentPage <= Max(PageCount(), 1)
    }

    /** Nothing fetched yet, empty filters, page 1. */
    constructor ()
      ensures Valid() && InRange()
      ensures events == [] && search == "" && dateFilter == "" && currentPage == 1
    {
      events, search, dateFilter, currentPage := [], "", "", 1;
    }

    /** The fetch resolved with `data`; the page number is left as it is. */
    method OnEventsLoaded(data: seq<UiEvent>)
      requires Valid()
      modifies this
      ensures Valid()
      ensures events == data
      ensures search == old(search) && dateFilter == old(dateFilter) && currentPage == old(currentPage)
    {
      events := data;
    }

    /** Typing in the device search box: new search text, back to page 1. */
    method OnSearchChange(value: string)
      requires Valid()
      modifies this
      ensures Valid() && InRange()
      ensures search == value && currentPage == 1
      ensures events == old(events) && dateFilter == old(dateFilter)
    {
      search := value;
      currentPage := 1;
    }

    /** Picking a date: new date filter, back to page 1. */
    method OnDateChange(value: string)
      requires Valid()
      modifies this
      ensures Valid() && InRange()
      ensures dateFilter == value && currentPage == 1
      ensures events == old(events) && search == old(search)
    {
      dateFilter := value;
      currentPage := 1;
    }

    /** Prev: one page back, unless the button is disabled (on page 1). */
    method OnPrev()
      requires Valid()
      modifies this
      ensures Valid()
      ensures old(InRange()) ==> InRange()
      ensures currentPage == if PrevEnabled(old(currentPage)) then old(currentPage) - 1 else old(currentPage)
      ensures events == old(events) && search == old(search) && dateFilter == old(dateFilter)
    {
      if PrevEnabled(currentPage) {
        currentPage := currentPage - 1;
      }
    }

    /**
     * Next: one page forward, unless the button is disabled (on page
     * `totalPages`).  The range is kept only when there is at least one page.
     */
    method OnNext()
      requires Valid()
      modifies this
      ensures Valid()
      ensures old(InRange()) && PageCount() >= 1 ==> InRange()
      ensures currentPage == if NextEnabled(old(currentPage), old(PageCount())) then old(currentPage) + 1 else old(currentPage)
      ensures events == old(events) && search == old(search) && dateFilter == old(dateFilter)
    {
      if NextEnabled(currentPage, PageCount()) {
        currentPage := currentPage + 1;
      }
    }
  }
}
