/**
 * Page bookkeeping for infinite lists: whether a page may be requested, and
 * which pages of a prefetch window still have to be requested. Loaded pages
 * are a map from page number to its items, pages in flight a set of numbers.
 */
module Pages {
  import opened JsMath

  /**
   * The last-page guard `page > Math.floor(total / pageSize)`. A zero page
   * size divides to +Infinity, -Infinity or NaN, and of those only
   * -Infinity (a negative total) lets any page number exceed the quotient.
   */
  predicate PastLastPage(page: int, total: int, pageSize: int)
  {
    if pageSize == 0 then total < 0
    else page > Floor(total as real / pageSize as real)
  }

  /** For a positive page size the quotient is integer floor division. */
  lemma PastLastPageIsIntegerDivision(page: int, total: int, pageSize: int)
    requires pageSize > 0
    ensures PastLastPage(page, total, pageSize) <==> page > total / pageSize
  {
    var q := total / pageSize;
    var x := total as real / pageSize as real;
    assert total == q * pageSize + total % pageSize;
    assert q as real * pageSize as real <= total as real < (q + 1) as real * pageSize as real;
    ScaleLe(q as real, total as real, pageSize as real);
    ScaleLt(total as real, (q + 1) as real, pageSize as real);
    assert Floor(x) == q;
  }

  /** Whether `page` may be requested: not loaded, not in flight, not past a known total, and not past the last page once nothing more is announced. */
  predicate CanLoadPage<T>(page: int, pages: map<int, seq<T>>, loadingPages: set<int>,
                           total: int, pageSize: int, hasMore: bool)
  {
    if page in pages || page in loadingPages then false
    else if total > 0 && page * pageSize >= total then false
    else if !hasMore && PastLastPage(page, total, pageSize) then false
    else true
  }

  /** A page that is loaded or in flight is never requested again. */
  lemma LoadedOrLoadingIsNotLoadable<T>(page: int, pages: map<int, seq<T>>, loadingPages: set<int>,
                                        total: int, pageSize: int, hasMore: bool)
    requires page in pages || page in loadingPages
    ensures !CanLoadPage(page, pages, loadingPages, total, pageSize, hasMore)
  {
  }

  /** A page that starts at or after a known positive total is never requested. */
  lemma BeyondTotalIsNotLoadable<T>(page: int, pages: map<int, seq<T>>, loadingPages: set<int>,
                                    total: int, pageSize: int, hasMore: bool)
    requires total > 0 && page * pageSize >= total
    ensures !CanLoadPage(page, pages, loadingPages, total, pageSize, hasMore)
  {
  }

  /** With nothing more to come, a page past the last one is never requested. */
  lemma PastLastPageWithoutMoreIsNotLoadable<T>(page: int, pages: map<int, seq<T>>, loadingPages: set<int>,
                                                total: int, pageSize: int)
    requires PastLastPage(page, total, pageSize)
    ensures !CanLoadPage(page, pages, loadingPages, total, pageSize, false)
  {
  }

  /** Before anything is known (no pages, none in flight, total 0, more to come) every page is loadable. */
  lemma InitialStateLoadsEveryPage<T>(page: int, pageSize: int)
    ensures var none: map<int, seq<T>> := map[]; CanLoadPage(page, none, {}, 0, pageSize, true)
  {
  }

  /**
   * Once a positive total is known and the page size is positive, the
   * last-page guard never decides anything: a page starting below the total
   * is at most the floor of the quotient, so `hasMore` is irrelevant.
   */
  lemma KnownTotalDecides<T>(page: int, pages: map<int, seq<T>>, loadingPages: set<int>,
                             total: int, pageSize: int, hasMore: bool)
    requires total > 0 && pageSize > 0
    ensures CanLoadPage(page, pages, loadingPages, total, pageSize, hasMore) <==>
              page !in pages && page !in loadingPages && page * pageSize < total
  {
    PastLastPageIsIntegerDivision(page, total, pageSize);
    var q := total / pageSize;
    assert total < (q + 1) * pageSize;
    if page > q {
      // a page past the quotient starts at or after the total
      MulMonotone(q + 1, page, pageSize);
    }
  }

  lemma MulMonotone(a: int, b: int, c: int)
    requires a <= b && c >= 0
    ensures a * c <= b * c
  {
  }

  /** A page that is already loaded, or still loading, is not requested again (total 100 in pages of 20, more to come). */
  lemma DuplicateLoadScenario()
    ensures !CanLoadPage(0, map[0 := [7]], {}, 100, 20, true)
    ensures !CanLoadPage(1, map[0 := [7]], {1}, 100, 20, true)
    ensures CanLoadPage(1, map[0 := [7]], {}, 100, 20, true)
  {
  }

  /** Total 50 in pages of 20 with nothing more: page 2 is loadable, page 3 starts past the total. */
  lemma BeyondTotalScenario()
    ensures CanLoadPage(2, map[0 := [7]], {}, 50, 20, false)
    ensures !CanLoadPage(3, map[0 := [7]], {}, 50, 20, false)
  {
    PastLastPageIsIntegerDivision(2, 50, 20);
  }

  /** A page of the window that is neither loaded nor in flight. */
  predicate Missing<T>(p: int, pages: map<int, seq<T>>, loadingPages: set<int>)
  {
    p !in pages && p !in loadingPages
  }

  /** The missing pages of `start..end`, ascending. */
  function MissingPages<T>(start: int, end: int, pages: map<int, seq<T>>, loadingPages: set<int>): seq<int>
    decreases end - start
  {
    if end < start then []
    else MissingPages(start, end - 1, pages, loadingPages) + (if Missing(end, pages, loadingPages) then [end] else [])
  }

  /**
   * Exactly the missing pages of the window are listed, strictly ascending,
   * no more of them than the window has pages.
   */
  lemma {:induction false} MissingPagesAreTheMissingPages<T>(start: int, end: int, pages: map<int, seq<T>>, loadingPages: set<int>)
    ensures var r := MissingPages(start, end, pages, loadingPages);
            && (forall p :: p in r <==> start <= p <= end && Missing(p, pages, loadingPages))
            && (forall i, j :: 0 <= i < j < |r| ==> r[i] < r[j])
            && |r| <= Max(0, end - start + 1)
    decreases end - start
  {
    if end >= start {
      MissingPagesAreTheMissingPages(start, end - 1, pages, loadingPages);
      var prefix := MissingPages(start, end - 1, pages, loadingPages);
      var r := MissingPages(start, end, pages, loadingPages);
      forall i, j | 0 <= i < j < |r| ensures r[i] < r[j] {
        if j < |prefix| {
          assert r[i] == prefix[i] && r[j] == prefix[j];
        } else {
          assert r[i] == prefix[i] && prefix[i] in prefix && r[j] == end;
        }
      }
    }
  }

  /** An inverted window yields nothing. */
  lemma EmptyWindow<T>(start: int, end: int, pages: map<int, seq<T>>, loadingPages: set<int>)
    requires start > end
    ensures MissingPages(start, end, pages, loadingPages) == []
  {
  }

  /** The filter loop: every page from `prefetchStart` through `prefetchEnd` that is missing is pushed. */
  method FindMissingPages<T>(prefetchStart: int, prefetchEnd: int, pages: map<int, seq<T>>, loadingPages: set<int>)
    returns (missingPages: seq<int>)
    ensures missingPages == MissingPages(prefetchStart, prefetchEnd, pages, loadingPages)
  {
    missingPages := [];
    var p := prefetchStart;
    while p <= prefetchEnd
      invariant prefetchStart <= p <= Max(prefetchStart, prefetchEnd + 1)
      invariant missingPages == MissingPages(prefetchStart, p - 1, pages, loadingPages)
      decreases prefetchEnd - p
    {
      if p !in pages && p !in loadingPages {
        missingPages := missingPages + [p];
      }
      p := p + 1;
    }
  }

  /** The window 0..4 with page 1 loaded and page 3 in flight still needs pages 0, 2 and 4. */
  lemma MissingPagesScenario()
    ensures MissingPages(0, 4, map[1 := [7]], {3}) == [0, 2, 4]
  {
  }
}
