/**
 * Client-side pagination (hooks/use-pagination.ts): a page count by ceiling
 * division, each page a slice of the data, and a current page that the
 * navigation operations keep within range.
 */
module Pagination {

  function Min(a: int, b: int): int { if a <= b then a else b }
  function Max(a: int, b: int): int { if a >= b then a else b }

  /** `Math.ceil(a / b)` for a positive divisor, for negative `a` too. */
  function CeilDiv(a: int, b: int): (q: int)
    requires b > 0
    ensures (q - 1) * b < a <= q * b
  {
    var d := (-a) / b;
    assert d * b <= -a < d * b + b;
    -d
  }

  /** There is only one integer with the ceiling's defining bounds. */
  lemma CeilDivUnique(a: int, b: int, q: int)
    requires b > 0
    requires (q - 1) * b < a <= q * b
    ensures q == CeilDiv(a, b)
  {
    var c := CeilDiv(a, b);
    if q < c {
      MulLeMono(q, c - 1, b);
    } else if c < q {
      MulLeMono(c, q - 1, b);
    }
  }

  lemma MulLeMono(x: int, y: int, b: int)
    requires x <= y && b > 0
    ensures x * b <= y * b
  {
    assert y * b - x * b == (y - x) * b;
  }

  /** `Math.ceil(length / pageSize)`: the fewest pages of `size` items that hold `n` items. */
  function PageCount(n: nat, size: int): (p: nat)
    requires size > 0
    ensures (p - 1) * size < n <= p * size
    ensures p == 0 <==> n == 0
  {
    var q := CeilDiv(n, size);
    assert q >= 0 by {
      if q < 0 {
        MulLeMono(q, -1, size);
      }
    }
    q
  }

  /** A JavaScript slice bound: a negative index counts from the end; the result is clamped to [0, len]. */
  function ClampIndex(i: int, len: nat): (k: nat)
    ensures k <= len
    ensures 0 <= i ==> k == Min(i, len)
  {
    if i < 0 then Max(len + i, 0) else Min(i, len)
  }

  /** `s.slice(start, end)`. */
  function Slice<T>(s: seq<T>, start: int, end: int): (r: seq<T>)
    ensures |r| <= |s|
    ensures 0 <= start ==> |r| == Max(0, ClampIndex(end, |s|) - Min(start, |s|))
    ensures 0 <= start ==> forall k :: 0 <= k < |r| ==> start + k < |s| && r[k] == s[start + k]
  {
    var from, to := ClampIndex(start, |s|), ClampIndex(end, |s|);
    if from < to then s[from..to] else []
  }

  /** paginatedData: `data.slice((page - 1) * size, (page - 1) * size + size)`. */
  function PageOf<T>(data: seq<T>, page: int, size: int): (r: seq<T>)
    requires size > 0
    ensures page >= 1 ==> |r| <= size
    ensures page >= 1 ==> forall k :: 0 <= k < |r| ==>
      (page - 1) * size + k < |data| && r[k] == data[(page - 1) * size + k]
    ensures page >= 1 && (page - 1) * size < |data| ==> |r| == Min(size, |data| - (page - 1) * size)
    ensures page >= 1 && |data| <= (page - 1) * size ==> r == []
  {
    var start := (page - 1) * size;
    if page >= 1 then
      MulLeMono(0, page - 1, size);
      WindowOf(data, start, size);
      Slice(data, start, start + size)
    else
      Slice(data, start, start + size)
  }

  /** A slice of `size` items from a non-negative `start`: at most `size`, fewer only at the end of the data. */
  lemma WindowOf<T>(data: seq<T>, start: int, size: int)
    requires start >= 0 && size > 0
    ensures var r := Slice(data, start, start + size);
      && |r| <= size
      && (start < |data| ==> |r| == Min(size, |data| - start))
      && (|data| <= start ==> r == [])
  {
  }

  /** A page within [1, PageCount] is never empty; a page past it always is. */
  lemma PageNonEmptyInRange<T>(data: seq<T>, page: int, size: int)
    requires size > 0 && page >= 1
    ensures |PageOf(data, page, size)| > 0 <==> page <= PageCount(|data|, size)
  {
    var p := PageCount(|data|, size);
    if page <= p {
      MulLeMono(page - 1, p - 1, size);
    } else {
      MulLeMono(p, page - 1, size);
    }
  }

  /** Every item is on page `i / size + 1`, at position `i % size`, and that page is in range. */
  lemma PagesCover<T>(data: seq<T>, size: int, i: int)
    requires size > 0 && 0 <= i < |data|
    ensures var page := i / size + 1;
      && 1 <= page <= PageCount(|data|, size)
      && i % size < |PageOf(data, page, size)|
      && PageOf(data, page, size)[i % size] == data[i]
  {
    var page := i / size + 1;
    assert (page - 1) * size + i % size == i;
    assert (page - 1) * size <= i;
    PageNonEmptyInRange(data, page, size);
  }

  /**
   * adjustPageAfterDeletion: the page count for one item fewer; the page
   * moves back to it when the current page lies beyond it and it is positive.
   */
  function AfterDeletion(current: int, n: int, size: int): (p: int)
    requires size > 0
    ensures p <= current
    ensures current >= 1 ==> p >= 1
    ensures p != current ==> p == CeilDiv(n - 1, size) && current > p
    ensures current > CeilDiv(n - 1, size) > 0 ==> p == CeilDiv(n - 1, size)
  {
    var newTotal := CeilDiv(n - 1, size);
    if current > newTotal && newTotal > 0 then newTotal else current
  }

  /**
   * After a deletion the adjusted page lies within range of the shorter list:
   * a page that was in range for `n` items is in range for `n - 1`.
   */
  lemma AfterDeletionInRange(current: int, n: nat, size: int)
    requires size > 0 && n >= 1
    requires 1 <= current <= Max(1, PageCount(n, size))
    ensures 1 <= AfterDeletion(current, n, size) <= Max(1, PageCount(n - 1, size))
  {
    CeilDivUnique(n - 1, size, PageCount(n - 1, size));
  }

  /** Eleven items at five per page, on page 3: the last page empties, so the page moves to 2. */
  lemma {:induction false} AdjustElevenOnPageThree()
    ensures PageCount(11, 5) == 3 && AfterDeletion(3, 11, 5) == 2
  {
    CeilDivUnique(11, 5, 3);
    CeilDivUnique(10, 5, 2);
  }

  /** Twelve items at five per page, on page 3: two items remain there, so the page stays. */
  lemma {:induction false} AdjustTwelveOnPageThree()
    ensures PageCount(12, 5) == 3 && |PageOf(seq(12, i => i), 3, 5)| == 2 && AfterDeletion(3, 12, 5) == 3
  {
    CeilDivUnique(12, 5, 3);
    CeilDivUnique(11, 5, 3);
  }

  /**
   * The state of one `usePagination` call. `data` is the prop of the latest
   * render (it can change between calls); `currentPage` is the hook's state.
   */
  class Paginator<T> {
    var data: seq<T>
    const pageSize: int
    var currentPage: int

    constructor (data: seq<T>, pageSize: int)
      requires pageSize > 0
      ensures this.data == data && this.pageSize == pageSize && currentPage == 1
      ensures InRange()
    {
      this.data := data;
      this.pageSize := pageSize;
      currentPage := 1;
    }

    /** totalPages: the fewest pages that hold the data. */
    function TotalPages(): (p: nat)
      reads this
      requires pageSize > 0
      ensures (p - 1) * pageSize < |data| <= p * pageSize
    {
      PageCount(|data|, pageSize)
    }

    /** paginatedData: the current page's items, at most a page of them, in order. */
    function PaginatedData(): (r: seq<T>)
      reads this
      requires pageSize > 0
      ensures currentPage >= 1 ==> |r| <= pageSize
      ensures currentPage >= 1 ==> forall k :: 0 <= k < |r| ==> r[k] in data
      ensures InRange() ==> (r != [] <==> data != [])
    {
      if currentPage >= 1 then PageNonEmptyInRange(data, currentPage, pageSize); PageOf(data, currentPage, pageSize)
      else PageOf(data, currentPage, pageSize)
    }

    /** canGoNext: from a page that exists, exactly when the next page holds items. */
    predicate CanGoNext()
      reads this
      requires pageSize > 0
      ensures currentPage >= 0 ==> (CanGoNext() <==> PageOf(data, currentPage + 1, pageSize) != [])
    {
      if currentPage >= 0 then PageNonEmptyInRange(data, currentPage + 1, pageSize); currentPage < TotalPages()
      else currentPage < TotalPages()
    }

    /** canGoPrevious: exactly when there is a page before this one, and that page holds items. */
    predicate CanGoPrevious()
      reads this
      ensures pageSize > 0 && currentPage <= PageCount(|data|, pageSize) ==>
        (CanGoPrevious() <==> currentPage - 1 >= 1 && PageOf(data, currentPage - 1, pageSize) != [])
    {
      if pageSize > 0 && currentPage >= 2 then
        PageNonEmptyInRange(data, currentPage - 1, pageSize); currentPage > 1
      else currentPage > 1
    }

    /** The current page is a real page (or page 1 of an empty list). */
    predicate InRange()
      reads this
      requires pageSize > 0
    {
      1 <= currentPage <= Max(1, TotalPages())
    }

    /** A new render with another `data` prop; the page state is kept as it is. */
    method SetData(newData: seq<T>)
      modifies this`data
      ensures data == newData
    {
      data := newData;
    }

    method GoToPage(page: int)
      requires pageSize > 0
      modifies this`currentPage
      ensures currentPage == if 1 <= page <= TotalPages() then page else old(currentPage)
      ensures old(InRange()) ==> InRange()
    {
      if 1 <= page && page <= TotalPages() {
        currentPage := page;
      }
    }

    method GoToNextPage()
      requires pageSize > 0
      modifies this`currentPage
      ensures currentPage == if old(CanGoNext()) then old(currentPage) + 1 else old(currentPage)
      ensures old(InRange()) ==> InRange()
    {
      if currentPage < TotalPages() {
        currentPage := currentPage + 1;
      }
    }

    method GoToPreviousPage()
      requires pageSize > 0
      modifies this`currentPage
      ensures currentPage == if old(CanGoPrevious()) then old(currentPage) - 1 else old(currentPage)
      ensures old(InRange()) ==> InRange()
    {
      if currentPage > 1 {
        currentPage := currentPage - 1;
      }
    }

    method ResetToFirstPage()
      requires pageSize > 0
      modifies this`currentPage
      ensures currentPage == 1 && InRange()
    {
      currentPage := 1;
    }

    /**
     * Run while the deleted item is still in `data`; once the list shrinks by
     * one, the page is in range again (see AfterDeletionInRange).
     */
    method AdjustPageAfterDeletion()
      requires pageSize > 0
      modifies this`currentPage
      ensures currentPage == AfterDeletion(old(currentPage), |data|, pageSize)
      ensures old(InRange()) && |data| >= 1 ==> 1 <= currentPage <= Max(1, PageCount(|data| - 1, pageSize))
    {
      var newTotal := CeilDiv(|data| - 1, pageSize);
      if currentPage > newTotal && newTotal > 0 {
        currentPage := newTotal;
      }
      if old(InRange()) && |data| >= 1 {
        AfterDeletionInRange(old(currentPage), |data|, pageSize);
      }
    }
  }
}
