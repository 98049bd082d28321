/** Paging: the client-side page slice of the order table. */
module Paging {

  /** The fixed page size of the table. */
  const ROWS_PER_PAGE: nat := 6

  function Min(a: int, b: int): int {
    if a <= b then a else b
  }

  /** `s.slice(start, end)` for non-negative bounds: both bounds are clamped
      to the length, and an empty range gives the empty list. */
  function Slice<T>(s: seq<T>, start: nat, end: nat): (r: seq<T>)
    ensures start <= end <= |s| ==> r == s[start..end]
    ensures start <= |s| <= end ==> r == s[start..]
    ensures |s| <= start || end <= start ==> r == []
  {
    if |s| <= start || end <= start then [] else s[start..Min(end, |s|)]
  }

  /** The rows of page `page`: `s.slice(page * 6, page * 6 + 6)`. At most six
      rows, taken in list order from position page * 6 on. */
  function PageRows<T>(s: seq<T>, page: nat): (r: seq<T>)
    ensures |r| <= ROWS_PER_PAGE
    ensures |r| == if |s| <= page * ROWS_PER_PAGE then 0 else Min(ROWS_PER_PAGE, |s| - page * ROWS_PER_PAGE)
    ensures forall k :: 0 <= k < |r| ==> r[k] == s[page * ROWS_PER_PAGE + k]
  {
    Slice(s, page * ROWS_PER_PAGE, page * ROWS_PER_PAGE + ROWS_PER_PAGE)
  }

  /** The number of pages the pagination control offers for n rows. */
  function PageCount(n: nat): nat {
    (n + ROWS_PER_PAGE - 1) / ROWS_PER_PAGE
  }

  /** A page has rows exactly when its index is below the page count. */
  lemma PageNonEmptyIff<T>(s: seq<T>, page: nat)
    ensures PageRows(s, page) != [] <==> page < PageCount(|s|)
  {
  }

  /** The first k pages, one after another. */
  function Pages<T>(s: seq<T>, k: nat): seq<T> {
    if k == 0 then [] else Pages(s, k - 1) + PageRows(s, k - 1)
  }

  /** The first k pages are exactly the first min(6k, |s|) rows. */
  lemma {:induction false} PagesArePrefix<T>(s: seq<T>, k: nat)
    ensures Pages(s, k) == s[..Min(k * ROWS_PER_PAGE, |s|)]
  {
    if k > 0 {
      PagesArePrefix(s, k - 1);
      var lo := Min((k - 1) * ROWS_PER_PAGE, |s|);
      var hi := Min(k * ROWS_PER_PAGE, |s|);
      assert PageRows(s, k - 1) == s[lo..hi];
      assert s[..lo] + s[lo..hi] == s[..hi];
    }
  }

  /** All pages together show every row once, in list order. */
  lemma AllPagesCoverList<T>(s: seq<T>)
    ensures Pages(s, PageCount(|s|)) == s
  {
    var k := PageCount(|s|);
    PagesArePrefix(s, k);
    assert |s| <= k * ROWS_PER_PAGE;
  }

  /** Row i is shown on page i / 6, at position i % 6. */
  lemma RowOnPage<T>(s: seq<T>, i: nat)
    requires i < |s|
    ensures i / ROWS_PER_PAGE < PageCount(|s|)
    ensures i % ROWS_PER_PAGE < |PageRows(s, i / ROWS_PER_PAGE)|
    ensures PageRows(s, i / ROWS_PER_PAGE)[i % ROWS_PER_PAGE] == s[i]
  {
  }

  /** Thirteen rows: pages of six, six and one. */
  lemma ThirteenRows<T>(s: seq<T>)
    requires |s| == 13
    ensures PageCount(|s|) == 3
    ensures PageRows(s, 0) == s[0..6]
    ensures PageRows(s, 1) == s[6..12]
    ensures PageRows(s, 2) == s[12..13]
    ensures PageRows(s, 3) == []
  {
  }
}
