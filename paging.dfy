/**
 * The invoice list's pagination: `itemsPerPage` rows per page, or every row
 * when `itemsPerPage` is -1 (the "all" option); pages are numbered from 1.
 */
module Paging {

  import opened Wrappers
  import Lists

  /** The "all" option of the rows-per-page select. */
  const ShowAll: int := -1

  /** The select offers 5, 10, 50, 100 and "all". */
  predicate ValidPerPage(ipp: int)
  {
    ipp == ShowAll || ipp > 0
  }

  /** The number of rows before page `page` when a page holds `ipp` rows. */
  function FirstRow(ipp: nat, page: nat): nat
    requires page >= 1
  {
    (page - 1) * ipp
  }

  /**
   * The rows shown on page `page`: everything for "all", otherwise
   * the `ipp` rows that follow the first `(page - 1) * ipp`.
   */
  function PageOf<T>(s: seq<T>, ipp: int, page: nat): (r: seq<T>)
    requires ValidPerPage(ipp) && page >= 1
    ensures ipp == ShowAll ==> r == s
    ensures ipp > 0 ==> |r| <= ipp
    ensures ipp > 0 ==> forall i :: 0 <= i < |r| ==> FirstRow(ipp, page) + i < |s| && r[i] == s[FirstRow(ipp, page) + i]
    ensures ipp > 0 && FirstRow(ipp, page) < |s| ==> |r| == Lists.Min(ipp, |s| - FirstRow(ipp, page))
  {
    if ipp == ShowAll then s
    else
      var start := FirstRow(ipp, page);
      Lists.Slice(s, start, start + ipp)
  }

  /**
   * The row count divided by the page size (by the count itself for "all"),
   * rounded up; `None` is the NaN that 0 / 0 gives when "all" is chosen and
   * nothing matches.
   */
  function TotalPages(count: nat, ipp: int): (r: Option<nat>)
    requires ValidPerPage(ipp)
    ensures r.None? <==> ipp == ShowAll && count == 0
    ensures ipp == ShowAll && count > 0 ==> r == Some(1)
    ensures ipp > 0 ==> r.Some? && count <= r.value * ipp && (r.value == 0 || (r.value - 1) * ipp < count)
  {
    if ipp == ShowAll then (if count == 0 then None else Some(1))
    else Some((count + ipp - 1) / ipp)
  }

  /** Pages 1 to `k`, one after the other. */
  function Pages<T>(s: seq<T>, ipp: int, k: nat): seq<T>
    requires ipp > 0
  {
    if k == 0 then [] else Pages(s, ipp, k - 1) + PageOf(s, ipp, k)
  }

  lemma {:induction false} PagesPrefix<T>(s: seq<T>, ipp: int, k: nat)
    requires ipp > 0
    ensures Pages(s, ipp, k) == s[..Lists.Min(k * ipp, |s|)]
  {
    if k > 0 {
      var lo, hi := Lists.Min(FirstRow(ipp, k), |s|), Lists.Min(k * ipp, |s|);
      assert 0 <= lo <= hi <= |s| && PageOf(s, ipp, k) == s[lo..hi] by {
        PageIsSlice(s, ipp, k);
      }
      assert Pages(s, ipp, k - 1) == s[..lo] by {
        PagesPrefix(s, ipp, k - 1);
      }
      SliceJoin(s, lo, hi);
    }
  }

  lemma SliceJoin<T>(s: seq<T>, lo: int, hi: int)
    requires 0 <= lo <= hi <= |s|
    ensures s[..lo] + s[lo..hi] == s[..hi]
  {
  }

  /** Page `k` is the slice between the clamped ends of pages `k - 1` and `k`. */
  lemma PageIsSlice<T>(s: seq<T>, ipp: int, k: nat)
    requires ipp > 0 && k >= 1
    ensures 0 <= Lists.Min(FirstRow(ipp, k), |s|) <= Lists.Min(k * ipp, |s|)
    ensures PageOf(s, ipp, k) == s[Lists.Min(FirstRow(ipp, k), |s|)..Lists.Min(k * ipp, |s|)]
  {
    assert k * ipp == FirstRow(ipp, k) + ipp;
  }

  /** Reading pages 1 to the last one in turn shows every row exactly once, in order. */
  lemma PagesRebuild<T>(s: seq<T>, ipp: int)
    requires ipp > 0
    ensures Pages(s, ipp, TotalPages(|s|, ipp).value) == s
  {
    PagesPrefix(s, ipp, TotalPages(|s|, ipp).value);
  }

  /** A page number past the last page shows no rows. */
  lemma PageBeyondLast<T>(s: seq<T>, ipp: int, page: nat)
    requires ipp > 0 && page > TotalPages(|s|, ipp).value
    ensures PageOf(s, ipp, page) == []
  {
    var t := TotalPages(|s|, ipp).value;
    assert t * ipp <= (page - 1) * ipp by {
      assert t <= page - 1;
    }
  }
}
