/**
 * The page arithmetic shared by every list in the dashboard: the page count
 * `Math.ceil(totalItems / limit)`, the Previous/Next guards and disabled flags,
 * the caption of the pagination bar, the row window
 * `items.slice((page - 1) * limit, page * limit)`, and the start/end indexes
 * the driver dashboard prints.
 */
module Pagination {
  import opened Text

  function Min(a: int, b: int): int { if a <= b then a else b }
  function Max(a: int, b: int): int { if a >= b then a else b }

  /** `Math.ceil(total / limit)`: the fewest pages of `limit` rows that hold `total` rows. */
  function TotalPages(total: nat, limit: nat): (p: nat)
    requires limit > 0
    ensures total <= p * limit
    ensures p == 0 || (p - 1) * limit < total
    ensures p == 0 <==> total == 0
  {
    var p := (total + limit - 1) / limit;
    assert p * limit <= total + limit - 1 < (p + 1) * limit;
    p
  }

  /** `a * limit` grows with `a`. */
  lemma MulMonotone(a: int, b: int, limit: nat)
    requires a <= b
    ensures a * limit <= b * limit
  {
  }

  /** The list guard `currentPage * limit < totalItems` is the same as "a later page exists". */
  lemma {:induction false} NextGuardIsPageBound(cp: int, total: nat, limit: nat)
    requires limit > 0 && cp >= 0
    ensures cp * limit < total <==> cp < TotalPages(total, limit)
  {
    var p := TotalPages(total, limit);
    if cp < p {
      MulMonotone(cp, p - 1, limit);
    } else {
      MulMonotone(p, cp, limit);
    }
  }

  /** The shared pagination bar's Previous button is disabled at page 1 and below. */
  predicate PreviousDisabled(cp: int) {
    cp <= 1
  }

  /** The shared pagination bar's Next button is disabled from the last page on. */
  predicate NextDisabled(cp: int, total: nat, limit: nat)
    requires limit > 0
  {
    cp >= TotalPages(total, limit)
  }

  /** With no rows there are no pages, and Next is disabled on every page. */
  lemma EmptyListHasNoNext(cp: int, limit: nat)
    requires limit > 0 && cp >= 0
    ensures TotalPages(0, limit) == 0
    ensures NextDisabled(cp, 0, limit)
  {
  }

  /** The caption "Page {currentPage} sur {totalPages}". */
  function Caption(cp: int, total: nat, limit: nat): (r: string)
    requires limit > 0
    ensures StartsWith(r, "Page ")
    ensures var head := IntToString(cp); var tail := NatToString(TotalPages(total, limit));
      |r| == 10 + |head| + |tail| && r[5..5 + |head|] == head && r[5 + |head|..10 + |head|] == " sur "
    ensures cp >= 0 ==> var head := r[5..5 + |IntToString(cp)|]; AllDigits(head) && ParseDigits(head) == cp
    ensures var tail := NatToString(TotalPages(total, limit));
      |tail| <= |r| && r[|r| - |tail|..] == tail && AllDigits(tail)
      && ParseDigits(tail) == TotalPages(total, limit)
  {
    var head := IntToString(cp);
    var tail := NatToString(TotalPages(total, limit));
    ParseNatToString(TotalPages(total, limit));
    ParseNatToString(if cp >= 0 then cp else 0);
    CaptionLayout(head, tail);
    "Page " + head + " sur " + tail
  }

  /** Where the two numbers sit in "Page {head} sur {tail}". */
  lemma CaptionLayout(head: string, tail: string)
    ensures var r := "Page " + head + " sur " + tail;
      |r| == 10 + |head| + |tail| && r[..5] == "Page " && r[5..5 + |head|] == head
      && r[5 + |head|..10 + |head|] == " sur " && r[|r| - |tail|..] == tail
  {
    var r := "Page " + head + " sur " + tail;
    assert r[..5] == "Page ";
    assert r[5..5 + |head|] == head;
    assert r[5 + |head|..10 + |head|] == " sur ";
    assert r[|r| - |tail|..] == tail;
  }

  /**
   * The list pages' `handleNextPage`: advance only when `currentPage * limit < totalItems`.
   */
  function NextPage(cp: int, total: nat, limit: nat): (r: int)
    requires limit > 0 && cp >= 0
    ensures r == cp || r == cp + 1
    ensures r == cp + 1 <==> cp < TotalPages(total, limit)
    ensures 1 <= cp <= Max(1, TotalPages(total, limit)) ==> 1 <= r <= Max(1, TotalPages(total, limit))
  {
    NextGuardIsPageBound(cp, total, limit);
    if cp * limit < total then cp + 1 else cp
  }

  /** The list pages' `handlePreviousPage`: go back only when `currentPage > 1`. */
  function PreviousPage(cp: int): (r: int)
    ensures cp > 1 ==> r == cp - 1
    ensures cp <= 1 ==> r == cp
    ensures cp >= 1 ==> r >= 1
  {
    if cp > 1 then cp - 1 else cp
  }

  /**
   * Within the page range, Next is allowed exactly when the bar's Next button is
   * enabled, and Previous moves exactly when its Previous button is enabled.
   */
  lemma GuardsMatchButtons(cp: int, total: nat, limit: nat)
    requires limit > 0 && cp >= 0
    ensures NextPage(cp, total, limit) != cp <==> !NextDisabled(cp, total, limit)
    ensures PreviousPage(cp) != cp <==> !PreviousDisabled(cp)
  {
  }

  // ---------------------------------------------------------------- slicing

  /** The index JavaScript's `slice` uses for a bound `k` on a list of length `n`. */
  function SliceIndex(k: int, n: nat): (r: nat)
    ensures r <= n
    ensures k < 0 ==> r == Max(n + k, 0)
    ensures k >= 0 ==> r == Min(k, n)
  {
    if k < 0 then (if n + k < 0 then 0 else n + k) else if k < n then k else n
  }

  /** `items.slice(start, end)`: out-of-range bounds are clamped, negative ones count from the end. */
  function Slice<T>(items: seq<T>, start: int, end: int): (r: seq<T>)
    ensures var s := SliceIndex(start, |items|); var e := SliceIndex(end, |items|);
      r == if s <= e then items[s..e] else []
  {
    var s := SliceIndex(start, |items|);
    var e := SliceIndex(end, |items|);
    if s <= e then items[s..e] else []
  }

  /** The rows shown on page `page`: `items.slice((page - 1) * limit, page * limit)`. */
  function Window<T>(items: seq<T>, page: int, limit: nat): (w: seq<T>)
    requires limit > 0 && page >= 1
    ensures |w| <= limit
    ensures |w| == Max(0, Min(page * limit, |items|) - (page - 1) * limit)
    ensures forall k :: 0 <= k < |w| ==> w[k] == items[(page - 1) * limit + k]
  {
    MulMonotone(page - 1, page, limit);
    Slice(items, (page - 1) * limit, page * limit)
  }

  /** Row `i` of the list is shown on page `i / limit + 1`, at position `i % limit`. */
  lemma WindowOfIndex<T>(items: seq<T>, limit: nat, i: nat)
    requires limit > 0 && i < |items|
    ensures var w := Window(items, i / limit + 1, limit);
      i % limit < |w| && w[i % limit] == items[i]
  {
    var page := i / limit + 1;
    assert (page - 1) * limit + i % limit == i;
  }

  /** Pages past the last one show no rows; page 1 through the last show at least one. */
  lemma WindowEmptyPastLastPage<T>(items: seq<T>, page: int, limit: nat)
    requires limit > 0 && page >= 1
    ensures |Window(items, page, limit)| == 0 <==> page > TotalPages(|items|, limit)
  {
    NextGuardIsPageBound(page - 1, |items|, limit);
  }

  // ---------------------------------------------------------------- server pages

  /**
   * The rows a paginated list endpoint answers for `page` when asked for
   * `serverLimit` rows per page: that page's block of the full list.
   */
  function ServerPage<T>(all: seq<T>, page: int, serverLimit: nat): (w: seq<T>)
    requires serverLimit > 0 && page >= 1
    ensures |w| <= serverLimit
  {
    Window(all, page, serverLimit)
  }

  /**
   * What the server-paginated lists show: the server's block for the current
   * page, sliced again by `(page - 1) * limit` as if it were the whole list.
   */
  function SlicedServerPage<T>(all: seq<T>, page: int, serverLimit: nat, limit: nat): seq<T>
    requires serverLimit > 0 && limit > 0 && page >= 1
  {
    Window(ServerPage(all, page, serverLimit), page, limit)
  }

  /** When the server and the table use the same page size, every page after the first is empty. */
  lemma SlicedServerPageEmptyAfterFirst<T>(all: seq<T>, page: int, limit: nat)
    requires limit > 0 && page >= 2
    ensures SlicedServerPage(all, page, limit, limit) == []
  {
    MulMonotone(1, page - 1, limit);
  }

  /**
   * With 10 rows per server page and 5 per table page, row `k` of page `page`
   * is row `15 * (page - 1) + k` of the full list while there is one: on a
   * list of the ids 0 to 19, page 1 shows ids 0 to 4, page 2 ids 15 to 19 and
   * every later page nothing, so ids 5 to 14 appear on no page.
   */
  lemma SlicedServerPageSkipsRows(page: int)
    requires page >= 1
    ensures var ids := seq(20, i => i);
      5 !in SlicedServerPage(ids, page, 10, 5)
    ensures var ids := seq(20, i => i);
      page == 1 ==> SlicedServerPage(ids, page, 10, 5) == [0, 1, 2, 3, 4]
    ensures var ids := seq(20, i => i);
      page == 2 ==> SlicedServerPage(ids, page, 10, 5) == [15, 16, 17, 18, 19]
    ensures var ids := seq(20, i => i);
      page >= 3 ==> SlicedServerPage(ids, page, 10, 5) == []
  {
    var ids := seq(20, i => i);
    var w := SlicedServerPage(ids, page, 10, 5);
    forall k | 0 <= k < |w|
      ensures w[k] == 15 * (page - 1) + k
    {
      assert w[k] == ServerPage(ids, page, 10)[(page - 1) * 5 + k];
    }
  }

  /**
   * The evidently intended listing: the server is asked for the table's own
   * page size and its block is shown as it comes. Then every row of the full
   * list is shown on page `i / limit + 1`, at position `i % limit`.
   */
  lemma ServerPageCoversAll<T>(all: seq<T>, limit: nat, i: nat)
    requires limit > 0 && i < |all|
    ensures var w := ServerPage(all, i / limit + 1, limit);
      i % limit < |w| && w[i % limit] == all[i]
  {
    WindowOfIndex(all, limit, i);
  }

  // ---------------------------------------------------------------- index range

  /** The driver dashboard's `startIndex = (currentPage - 1) * limit + 1`. */
  function StartIndex(cp: int, limit: nat): int {
    (cp - 1) * limit + 1
  }

  /** The driver dashboard's `endIndex = Math.min(currentPage * limit, totalItems)`. */
  function EndIndex(cp: int, total: nat, limit: nat): int {
    Min(cp * limit, total)
  }

  /**
   * On a page that exists, "startIndex-endIndex sur total" names exactly the
   * rows of that page's window, counted from 1.
   */
  lemma IndexRangeIsWindow<T>(items: seq<T>, cp: int, limit: nat)
    requires limit > 0 && 1 <= cp <= TotalPages(|items|, limit)
    ensures 1 <= StartIndex(cp, limit) <= EndIndex(cp, |items|, limit) <= |items|
    ensures EndIndex(cp, |items|, limit) - StartIndex(cp, limit) + 1 == |Window(items, cp, limit)|
    ensures |Window(items, cp, limit)| > 0
      && Window(items, cp, limit)[0] == items[StartIndex(cp, limit) - 1]
  {
    NextGuardIsPageBound(cp - 1, |items|, limit);
    MulMonotone(0, cp - 1, limit);
    MulMonotone(cp - 1, cp, limit);
  }

  // ---------------------------------------------------------------- local bars

  /** The hand-written bars (driver dashboard, order cards) only show with more than one page. */
  predicate ControlsShown(totalPages: nat) {
    totalPages > 1
  }

  /** The hand-written Previous button is disabled when `currentPage === 1`. */
  predicate PreviousDisabledAtFirst(cp: int) {
    cp == 1
  }

  /** The hand-written Next button is disabled when `currentPage === totalPages`. */
  predicate NextDisabledAtLast(cp: int, totalPages: nat) {
    cp == totalPages
  }

  /**
   * Inside the page range the equality tests of the hand-written bars agree
   * with the shared bar's inequality tests.
   */
  lemma LocalBarsAgree(cp: int, total: nat, limit: nat)
    requires limit > 0 && 1 <= cp <= TotalPages(total, limit)
    ensures PreviousDisabledAtFirst(cp) <==> PreviousDisabled(cp)
    ensures NextDisabledAtLast(cp, TotalPages(total, limit)) <==> NextDisabled(cp, total, limit)
  {
  }
}
