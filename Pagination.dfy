/**
 * The client-side pagination both list screens use: ten rows per page, `Math.ceil(n / 10)`
 * pages, `list.slice((page - 1) * 10, page * 10)` for the rows of a page, and the two buttons
 * "Sebelumnya" (previous) and "Berikutnya" (next) with their clamps and disabled rules.
 */
module Pagination {

  const ItemsPerPage: nat := 10

  function Min(a: int, b: int): int { if a <= b then a else b }

  /** `Math.ceil(n / itemsPerPage)`: the fewest pages of ten that hold n rows. */
  function TotalPages(n: nat): (r: nat)
    ensures r * ItemsPerPage >= n
    ensures r > 0 ==> (r - 1) * ItemsPerPage < n
    ensures r == 0 <==> n == 0
  {
    (n + ItemsPerPage - 1) / ItemsPerPage
  }

  /** How `Array.prototype.slice` reads an index: negative counts from the end, then clamped. */
  function SliceIndex(i: int, len: nat): (r: nat)
    ensures r <= len
    ensures 0 <= i <= len ==> r == i
  {
    if i < 0 then (if len + i < 0 then 0 else len + i) else if i > len then len else i
  }

  /** `s.slice(start, end)`: the plain subsequence when both ends lie in order inside s. */
  function Slice<T>(s: seq<T>, start: int, end: int): (r: seq<T>)
    ensures 0 <= start <= end <= |s| ==> r == s[start..end]
    ensures |r| <= |s|
    ensures SliceIndex(end, |s|) <= SliceIndex(start, |s|) ==> r == []
  {
    var from, to := SliceIndex(start, |s|), SliceIndex(end, |s|);
    if from < to then s[from..to] else []
  }

  /** `s.slice((page - 1) * itemsPerPage, page * itemsPerPage)`: the rows page p shows. */
  function PageItems<T>(s: seq<T>, page: int): (r: seq<T>)
    ensures page >= 1 ==>
      r == s[Min((page - 1) * ItemsPerPage, |s|)..Min(page * ItemsPerPage, |s|)]
    ensures |r| <= ItemsPerPage
  {
    Slice(s, (page - 1) * ItemsPerPage, page * ItemsPerPage)
  }

  /** Every page before the last is full and the last page is not empty. */
  lemma PageSizes<T>(s: seq<T>, page: int)
    requires 1 <= page <= TotalPages(|s|)
    ensures page < TotalPages(|s|) ==> |PageItems(s, page)| == ItemsPerPage
    ensures page == TotalPages(|s|) ==> |PageItems(s, page)| == |s| - (page - 1) * ItemsPerPage > 0
  {
  }

  /** Pages 1..k laid end to end. */
  function FirstPages<T>(s: seq<T>, k: nat): seq<T>
  {
    if k == 0 then [] else FirstPages(s, k - 1) + PageItems(s, k)
  }

  /** The first k pages are the first 10k rows. */
  lemma {:induction false} FirstPagesPrefix<T>(s: seq<T>, k: nat)
    ensures FirstPages(s, k) == s[..Min(k * ItemsPerPage, |s|)]
  {
    if k > 0 {
      FirstPagesPrefix(s, k - 1);
      var a, b := Min((k - 1) * ItemsPerPage, |s|), Min(k * ItemsPerPage, |s|);
      assert s[..a] + s[a..b] == s[..b];
    }
  }

  /** All pages together show every row exactly once, in order. */
  lemma PagesCoverList<T>(s: seq<T>)
    ensures FirstPages(s, TotalPages(|s|)) == s
  {
    FirstPagesPrefix(s, TotalPages(|s|));
    assert s[..|s|] == s;
  }

  /** `Math.max(p - 1, 1)` */
  function Previous(p: int): (r: int)
    ensures r >= 1
    ensures p >= 2 ==> r == p - 1
  {
    if p - 1 > 1 then p - 1 else 1
  }

  /** `Math.min(p + 1, totalPages)` */
  function Next(p: int, total: nat): (r: int)
    ensures r <= total
    ensures p < total ==> r == p + 1
  {
    if p + 1 < total then p + 1 else total
  }

  /** "Sebelumnya" is disabled on page 1, the one page where going back would not move. */
  predicate PreviousDisabled(p: int)
    ensures p >= 1 ==> (PreviousDisabled(p) <==> Previous(p) == p)
  {
    p == 1
  }

  /**
   * "Berikutnya" is disabled on the last page and when there are no pages; on a page within
   * range that is exactly where going on would not move.
   */
  predicate NextDisabled(p: int, total: nat)
    ensures 1 <= p <= total ==> (NextDisabled(p, total) <==> Next(p, total) == p)
    ensures total == 0 ==> NextDisabled(p, total)
  {
    p == total || total == 0
  }

  /** `totalPages || 1`, the page count in "Halaman p dari n". */
  function PagesShown(total: nat): (r: nat)
    ensures r >= 1
    ensures total > 0 ==> r == total
  {
    if total == 0 then 1 else total
  }

  /** The page after a click on "Sebelumnya"; a disabled button does nothing. */
  function ClickPrevious(p: int): (r: int)
    ensures p >= 2 ==> r == p - 1
    ensures p == 1 ==> r == 1
  {
    if PreviousDisabled(p) then p else Previous(p)
  }

  /** The page after a click on "Berikutnya"; a disabled button does nothing. */
  function ClickNext(p: int, total: nat): (r: int)
    ensures 0 <= p < total ==> r == p + 1
    ensures p == total || total == 0 ==> r == p
    ensures 0 < total < p ==> r == total
  {
    if NextDisabled(p, total) then p else Next(p, total)
  }

  /**
   * From any page between 1 and the page count shown, both buttons keep the page there;
   * "previous" goes back one unless on page 1, "next" goes on one unless on the last page.
   */
  lemma ClicksStayInRange(p: int, total: nat)
    requires 1 <= p <= PagesShown(total)
    ensures 1 <= ClickPrevious(p) <= PagesShown(total)
    ensures 1 <= ClickNext(p, total) <= PagesShown(total)
    ensures p > 1 ==> ClickPrevious(p) == p - 1
    ensures p == 1 ==> ClickPrevious(p) == 1
    ensures p < total ==> ClickNext(p, total) == p + 1
    ensures p >= total ==> ClickNext(p, total) == p
  {
  }

  /** From any page at all, "previous" never goes below 1 and "next" never past the last page. */
  lemma ClicksNeverOvershoot(p: int, total: nat)
    requires p >= 1
    ensures ClickPrevious(p) >= 1
    ensures ClickNext(p, total) >= 1
    ensures !NextDisabled(p, total) ==> ClickNext(p, total) <= total
    ensures NextDisabled(p, total) ==> ClickNext(p, total) == p
  {
  }

  /**
   * From a page past the last one (possible after the list shrinks), "next" is enabled and
   * moves back to the last page; "previous" goes back one.
   */
  lemma NextFromPastEnd(p: int, total: nat)
    requires 0 < total < p
    ensures !NextDisabled(p, total) && ClickNext(p, total) == total
    ensures ClickPrevious(p) == p - 1
  {
  }

  /** 25 rows: three pages, page 1 holds rows 0..9 and page 3 rows 20..24. */
  lemma TwentyFiveRows<T>(s: seq<T>)
    requires |s| == 25
    ensures TotalPages(|s|) == 3
    ensures PageItems(s, 1) == s[0..10]
    ensures PageItems(s, 3) == s[20..25] && |PageItems(s, 3)| == 5
  {
  }
}
