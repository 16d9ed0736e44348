/**
 * The pagination both list screens apply to their filtered list: page `p`
 * is `list.slice((p - 1) * 10, (p - 1) * 10 + 10)`, there are
 * `Math.ceil(n / 10)` pages, and the pager is drawn only when there is
 * more than one.
 */
module Paging {

  const ItemsPerPage: nat := 10

  /** An index argument of `Array.prototype.slice`, resolved against the length: negative ones count from the end. */
  function SliceIndex(i: int, n: nat): (k: nat)
    ensures k <= n
  {
    if i < 0 then (if n + i > 0 then n + i else 0) else if i < n then i else n
  }

  /** `xs.slice(start, end)`: empty when the resolved end is not after the resolved start. */
  function Slice<T>(xs: seq<T>, start: int, end: int): seq<T>
  {
    var s, e := SliceIndex(start, |xs|), SliceIndex(end, |xs|);
    if s < e then xs[s..e] else []
  }

  /** The items shown on page `p`. */
  function Page<T>(xs: seq<T>, p: int): seq<T>
  {
    Slice(xs, (p - 1) * ItemsPerPage, (p - 1) * ItemsPerPage + ItemsPerPage)
  }

  /** `Math.ceil(n / 10)`. */
  function TotalPages(n: nat): (pages: nat)
    ensures n <= pages * ItemsPerPage
    ensures pages == 0 || (pages - 1) * ItemsPerPage < n
  {
    (n + ItemsPerPage - 1) / ItemsPerPage
  }

  /** `totalPages > 1`. */
  predicate ShowPager(n: nat)
  {
    TotalPages(n) > 1
  }

  /** The pager appears exactly when there are more items than fit on one page. */
  lemma ShowPagerIff(n: nat)
    ensures ShowPager(n) <==> n > ItemsPerPage
  {
  }

  /**
   * A page from 1 on is the run of at most 10 items starting at the
   * `(p - 1) * 10`-th, and is empty past the last page.
   */
  lemma PageWindow<T>(xs: seq<T>, p: int)
    requires p >= 1
    ensures |Page(xs, p)| <= ItemsPerPage
    ensures (p - 1) * ItemsPerPage < |xs| ==>
      Page(xs, p) == xs[(p - 1) * ItemsPerPage .. Min(p * ItemsPerPage, |xs|)]
    ensures p > TotalPages(|xs|) ==> Page(xs, p) == []
  {
  }

  function Min(a: int, b: int): int
  {
    if a < b then a else b
  }

  /** Pages 1 to `k`, one after the other. */
  function PagesUpTo<T>(xs: seq<T>, k: nat): seq<T>
  {
    if k == 0 then [] else PagesUpTo(xs, k - 1) + Page(xs, k)
  }

  /** The first `k` pages are the first `10 k` items (or all of them). */
  lemma {:induction false} PagesUpToPrefix<T>(xs: seq<T>, k: nat)
    ensures PagesUpTo(xs, k) == xs[..Min(k * ItemsPerPage, |xs|)]
  {
    if k > 0 {
      PagesUpToPrefix(xs, k - 1);
      var lo, hi := Min((k - 1) * ItemsPerPage, |xs|), Min(k * ItemsPerPage, |xs|);
      if (k - 1) * ItemsPerPage < |xs| {
        PageWindow(xs, k);
        assert xs[..lo] + xs[lo..hi] == xs[..hi];
      } else {
        assert Page(xs, k) == [];
        assert lo == hi;
      }
    }
  }

  /** Going through every page from 1 to `totalPages` shows the whole list, in order, once. */
  lemma PagesRebuild<T>(xs: seq<T>)
    ensures PagesUpTo(xs, TotalPages(|xs|)) == xs
  {
    PagesUpToPrefix(xs, TotalPages(|xs|));
    assert xs[..|xs|] == xs;
  }
}
