/**
 * Paging of the filtered event list: ten rows per page, the page count is
 * the ceiling of the list length over ten, and page `p` (counted from 1) is
 * the array slice from `(p - 1) * 10` to `p * 10`.  The Prev and Next
 * buttons are disabled when the current page equals 1, respectively the
 * page count.
 */
module Pagination {

  const PageSize: nat := 10

  function Min(a: int, b: int): int { if a <= b then a else b }

  function Max(a: int, b: int): int { if a <= b then b else a }

  /** `Math.ceil(n / PageSize)`: the fewest pages that hold `n` rows. */
  function TotalPages(n: nat): (r: nat)
    ensures n <= PageSize * r < n + PageSize
    ensures r == 0 <==> n == 0
  {
    (n + PageSize - 1) / PageSize
  }

  /**
   * How `Array.prototype.slice` resolves a bound against length `len`:
   * a negative bound counts from the end, and the result is clamped to
   * `0..len`.
   */
  function SliceBound(k: int, len: nat): (r: nat)
    ensures r <= len
  {
    if k < 0 then (if len + k < 0 then 0 else len + k)
    else if k > len then len
    else k
  }

  /**
   * `s.slice(start, end)`: empty when the resolved end is not after the
   * resolved start.  In-range bounds give the plain subsequence, an end past
   * the list is cut at the list's end, and a start at or after the end gives
   * nothing.
   */
  function Slice<T>(s: seq<T>, start: int, end: int): (r: seq<T>)
    ensures |r| <= |s|
    ensures 0 <= start <= end <= |s| ==> r == s[start..end]
    ensures 0 <= start <= |s| <= end ==> r == s[start..]
    ensures 0 <= end <= start ==> r == []
    ensures -|s| <= start < 0 && end >= |s| ==> r == s[|s| + start..]
  {
    var from, to := SliceBound(start, |s|), SliceBound(end, |s|);
    if from < to then s[from..to] else []
  }

  /** The rows shown on page `page`. */
  function Page<T>(s: seq<T>, page: int): (r: seq<T>)
    ensures |r| <= PageSize
  {
    Slice(s, (page - 1) * PageSize, page * PageSize)
  }

  /**
   * For a page counted from 1, the slice never wraps around: it is the
   * window starting at `(page - 1) * 10`, cut at the end of the list, holds
   * at most ten rows, and is non-empty exactly for pages 1 to `TotalPages`.
   */
  lemma PageWindow<T>(s: seq<T>, page: int)
    requires 1 <= page
    ensures Min((page - 1) * PageSize, |s|) <= Min(page * PageSize, |s|)
    ensures Page(s, page) == s[Min((page - 1) * PageSize, |s|)..Min(page * PageSize, |s|)]
    ensures |Page(s, page)| <= PageSize
    ensures Page(s, page) != [] <==> page <= TotalPages(|s|)
  {
  }

  /** Pages `first` to `last`, one after the other. */
  function PagesFrom<T>(s: seq<T>, first: int, last: int): seq<T>
    decreases last - first
  {
    if first > last then [] else Page(s, first) + PagesFrom(s, first + 1, last)
  }

  /** Pages `first` up to the last page together hold the rest of the list. */
  lemma {:induction false} PagesFromRest<T>(s: seq<T>, first: int)
    requires 1 <= first <= TotalPages(|s|) + 1
    ensures PagesFrom(s, first, TotalPages(|s|)) == s[Min((first - 1) * PageSize, |s|)..]
    decreases TotalPages(|s|) - first
  {
    var total := TotalPages(|s|);
    if first > total {
      assert (first - 1) * PageSize >= total * PageSize >= |s|;
    } else {
      PagesFromRest(s, first + 1);
      PageWindow(s, first);
      var from, mid := Min((first - 1) * PageSize, |s|), Min(first * PageSize, |s|);
      assert s[from..mid] + s[mid..] == s[from..];
    }
  }

  /** Concatenating pages 1 to `TotalPages` gives back exactly the list. */
  lemma PagesReassemble<T>(s: seq<T>)
    ensures PagesFrom(s, 1, TotalPages(|s|)) == s
  {
    PagesFromRest(s, 1);
  }

  // ---------- the navigation buttons, as written ----------

  /** Prev is disabled when `currentPage === 1`. */
  predicate PrevEnabled(currentPage: int)
  {
    currentPage != 1
  }

  /** Next is disabled when `currentPage === totalPages`. */
  predicate NextEnabled(currentPage: int, totalPages: int)
  {
    currentPage != totalPages
  }

  /**
   * On a non-empty list the two guards keep the page within 1..TotalPages:
   * a page in range steps only to another page in range.
   */
  lemma GuardsKeepRange(currentPage: int, totalPages: nat)
    requires 1 <= currentPage <= totalPages
    ensures PrevEnabled(currentPage) ==> 1 <= currentPage - 1 <= totalPages
    ensures NextEnabled(currentPage, totalPages) ==> 1 <= currentPage + 1 <= totalPages
    ensures !PrevEnabled(currentPage) <==> currentPage == 1
    ensures !NextEnabled(currentPage, totalPages) <==> currentPage == totalPages
  {
  }

  /**
   * As written, an empty list has zero pages, so Next is never disabled:
   * from every page it leads to a page past the last one, whose slice is
   * empty.
   */
  lemma NextNeverDisabledWhenEmpty<T>(s: seq<T>, currentPage: int)
    requires s == [] && 1 <= currentPage
    ensures NextEnabled(currentPage, TotalPages(|s|))
    ensures currentPage + 1 > Max(TotalPages(|s|), 1)
    ensures Page(s, currentPage + 1) == []
  {
  }

  // ---------- the evidently intended Next guard ----------

  /** Next disabled on the last page and beyond; with no pages, already on page 1. */
  predicate NextEnabledBounded(currentPage: int, totalPages: int)
  {
    currentPage < totalPages
  }

  /**
   * The bounded guard agrees with the written one whenever the page is in
   * range of a non-empty list, and together with Prev it keeps the page
   * within 1..max(TotalPages, 1) for every list, the empty one included.
   */
  lemma BoundedGuardKeepsRange(currentPage: int, totalPages: nat)
    requires 1 <= currentPage <= Max(totalPages, 1)
    ensures 1 <= totalPages ==> (NextEnabledBounded(currentPage, totalPages) <==> NextEnabled(currentPage, totalPages))
    ensures NextEnabledBounded(currentPage, totalPages) ==> 1 <= currentPage + 1 <= Max(totalPages, 1)
    ensures PrevEnabled(currentPage) ==> 1 <= currentPage - 1 <= Max(totalPages, 1)
    ensures totalPages == 0 ==> !NextEnabledBounded(currentPage, totalPages)
  {
  }
}
