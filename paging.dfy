/** Page numbers of the paginated listings (the goods list and the user's
    order list, three entries per page): the requested page is normalised,
    then a window of at most five page links is chosen around it. */
module Paging {
  import opened Common

  /** The page the handler shows, or the EmptyPage error the paginator raises
      for a page below 1. */
  datatype PageChoice = Shown(page: int) | EmptyPage

  /** A page number that int() refuses becomes 1, and so does one beyond the
      last page; a number below 1 is passed on and makes the paginator raise. */
  function NormalizePage(raw: string, numPages: nat): (c: PageChoice)
    requires numPages >= 1
    ensures c.Shown? ==> 1 <= c.page <= numPages
    ensures ParseInt(raw).None? || ParseInt(raw).value > numPages ==> c == Shown(1)
    ensures ParseInt(raw).Some? && 1 <= ParseInt(raw).value <= numPages ==> c == Shown(ParseInt(raw).value)
    ensures c == EmptyPage <==> ParseInt(raw).Some? && ParseInt(raw).value < 1
  {
    match ParseInt(raw)
    case None => Shown(1)
    case Some(p) =>
      if p > numPages then Shown(1)
      else if p < 1 then EmptyPage
      else Shown(p)
  }

  /** Python's range(lo, hi). */
  function Range(lo: int, hi: int): (r: seq<int>)
    ensures |r| == if hi > lo then hi - lo else 0
    ensures forall i :: 0 <= i < |r| ==> r[i] == lo + i
    decreases hi - lo
  {
    if hi <= lo then [] else [lo] + Range(lo + 1, hi)
  }

  /** The page links as written: all pages "when there are fewer than five",
      by range(1, num_pages); otherwise the first five near the start, the
      last five near the end, and two either side of the page elsewhere. */
  function PageWindow(page: int, numPages: int): seq<int>
  {
    if numPages < 5 then Range(1, numPages)
    else if page <= 3 then Range(1, 6)
    else if numPages - page <= 2 then Range(numPages - 4, numPages + 1)
    else Range(page - 2, page + 3)
  }

  /** The window as evidently intended: every page when there are fewer than
      five. */
  function PageWindowCorrected(page: int, numPages: int): seq<int>
  {
    if numPages < 5 then Range(1, numPages + 1) else PageWindow(page, numPages)
  }

  /** Consecutive page numbers, all of them existing pages. */
  predicate ConsecutivePages(w: seq<int>, numPages: int)
  {
    (forall i :: 0 <= i < |w| ==> 1 <= w[i] <= numPages) &&
    (forall i :: 0 < i < |w| ==> w[i] == w[i - 1] + 1)
  }

  /** With five pages or more, the window is five consecutive existing pages
      and holds the current one. */
  lemma WindowOfFive(page: int, numPages: int)
    requires numPages >= 5 && 1 <= page <= numPages
    ensures var w := PageWindowCorrected(page, numPages);
      |w| == 5 && ConsecutivePages(w, numPages) && page in w
  {
    var w := PageWindowCorrected(page, numPages);
    if page <= 3 {
      assert w[page - 1] == page;
    } else if numPages - page <= 2 {
      assert w[page - (numPages - 4)] == page;
    } else {
      assert w[2] == page;
    }
  }

  /** With fewer than five pages the corrected window lists every page, and
      so holds the current one. */
  lemma WindowOfFew(page: int, numPages: int)
    requires 1 <= numPages < 5 && 1 <= page <= numPages
    ensures var w := PageWindowCorrected(page, numPages);
      |w| == numPages && ConsecutivePages(w, numPages) && w[0] == 1 && page in w
  {
    var w := PageWindowCorrected(page, numPages);
    assert w[page - 1] == page;
  }

  /** As written, with fewer than five pages the last page has no link, so on
      the last page the current page is missing from the window, and a single
      page gives no link at all. */
  lemma WindowOmitsLastPage(numPages: int)
    requires 1 <= numPages < 5
    ensures numPages !in PageWindow(numPages, numPages)
    ensures |PageWindow(numPages, numPages)| == numPages - 1
    ensures PageWindow(1, 1) == []
  {
  }

  /** Even as written, every link points at an existing page, in order. */
  lemma WindowWithinPages(page: int, numPages: int)
    requires 1 <= page <= numPages
    ensures ConsecutivePages(PageWindow(page, numPages), numPages)
  {
    if numPages >= 5 {
      WindowOfFive(page, numPages);
    }
  }
}
