/**
 The paging loop of `get_all_tickets`, on values. The loop asks for
 pages `start`, `start + 1`, ... and goes on while the page before it was
 full (PageSize entries) and the next page is still before `pageEnd`;
 `fetch(p)` is what fetching page `p` yields: its entry count, or the
 error that stops the loop.
 */
module Pagination {
  import opened Errors

  /** The page size the client assumes: a page with fewer entries is the last one. */
  const PageSize := 30

  /** The pages the loop requested, in order, and how it ended. */
  datatype Walked = Walked(pages: seq<int>, outcome: Outcome)

  /** The loop from `page` on. */
  function Walk(page: int, pageEnd: int, fetch: int -> Result<int>): Walked
    decreases pageEnd - page
  {
    if page >= pageEnd then Walked([], Pass)
    else
      match fetch(page)
      case Failure(e) => Walked([page], Fail(e))
      case Success(c) =>
        if c == PageSize then
          var rest := Walk(page + 1, pageEnd, fetch);
          Walked([page] + rest.pages, rest.outcome)
        else Walked([page], Pass)
  }

  /**
   The loop from `page` on, once the pages `done` have been requested:
   the loop as it runs, carrying the pages requested so far.
   */
  function WalkOn(page: int, pageEnd: int, fetch: int -> Result<int>, done: seq<int>): Walked
    decreases pageEnd - page
  {
    if page >= pageEnd then Walked(done, Pass)
    else
      match fetch(page)
      case Failure(e) => Walked(done + [page], Fail(e))
      case Success(c) =>
        if c == PageSize then WalkOn(page + 1, pageEnd, fetch, done + [page])
        else Walked(done + [page], Pass)
  }

  /** Carrying the pages so far is the same as putting them in front of the loop from `page`. */
  lemma {:induction false} WalkOnAfter(page: int, pageEnd: int, fetch: int -> Result<int>, done: seq<int>)
    ensures WalkOn(page, pageEnd, fetch, done) == Walked(done + Walk(page, pageEnd, fetch).pages, Walk(page, pageEnd, fetch).outcome)
    decreases pageEnd - page
  {
    if page >= pageEnd {
      assert done + [] == done;
    } else if fetch(page) == Success(PageSize) {
      WalkOnAfter(page + 1, pageEnd, fetch, done + [page]);
      var rest := Walk(page + 1, pageEnd, fetch);
      assert done + [page] + rest.pages == done + ([page] + rest.pages);
    }
  }

  /**
   Where the loop stands after requesting the pages `done`, the last of
   which held `count` entries, with `page` next: after a full page the
   loop goes on from `page`, after a short one it is over.
   */
  ghost predicate Midway(start: int, pageEnd: int, fetch: int -> Result<int>, done: seq<int>, page: int, count: int)
  {
    if count == PageSize then Walk(start, pageEnd, fetch) == WalkOn(page, pageEnd, fetch, done)
    else Walk(start, pageEnd, fetch) == Walked(done, Pass)
  }

  /** Before the first turn nothing is requested and the whole loop is still to come. */
  lemma WalkBegin(start: int, pageEnd: int, fetch: int -> Result<int>)
    ensures Midway(start, pageEnd, fetch, [], start, PageSize)
  {
    WalkOnAfter(start, pageEnd, fetch, []);
    assert [] + Walk(start, pageEnd, fetch).pages == Walk(start, pageEnd, fetch).pages;
  }

  /**
   One turn of the loop, by what fetching the page yielded: an error ends
   the loop with that error after this page, a count moves it on.
   */
  lemma WalkTurn(start: int, page: int, pageEnd: int, fetch: int -> Result<int>, done: seq<int>, res: Result<int>)
    requires page < pageEnd && res == fetch(page)
    requires Midway(start, pageEnd, fetch, done, page, PageSize)
    ensures res.Failure? ==> Walk(start, pageEnd, fetch) == Walked(done + [page], Fail(res.error))
    ensures res.Success? ==> Midway(start, pageEnd, fetch, done + [page], page + 1, res.value)
  {
  }

  /** When the last page was short or `pageEnd` is reached, the loop has passed. */
  lemma WalkEnd(start: int, pageEnd: int, fetch: int -> Result<int>, done: seq<int>, page: int, count: int)
    requires Midway(start, pageEnd, fetch, done, page, count)
    requires count != PageSize || page >= pageEnd
    ensures Walk(start, pageEnd, fetch) == Walked(done, Pass)
  {
  }

  /**
   The pages requested are `start, start + 1, ...` in increasing order:
   none when `start >= pageEnd`, at least one otherwise, and never more
   than `pageEnd - start`.
   */
  lemma {:induction false} WalkPages(start: int, pageEnd: int, fetch: int -> Result<int>)
    ensures var w := Walk(start, pageEnd, fetch);
      && (forall i :: 0 <= i < |w.pages| ==> w.pages[i] == start + i)
      && (start >= pageEnd ==> w.pages == [])
      && (start < pageEnd ==> 1 <= |w.pages| <= pageEnd - start)
    decreases pageEnd - start
  {
    if start < pageEnd && fetch(start).Success? && fetch(start).value == PageSize {
      WalkPages(start + 1, pageEnd, fetch);
    }
  }

  /**
   Every page but the last was full and fetched without error. The loop
   fails exactly with the error of its last page; it ends normally after
   a last page that was short or was the page just before `pageEnd`.
   */
  lemma {:induction false} WalkStops(start: int, pageEnd: int, fetch: int -> Result<int>)
    ensures var w := Walk(start, pageEnd, fetch);
      && (forall i :: 0 <= i < |w.pages| - 1 ==> fetch(w.pages[i]) == Success(PageSize))
      && (w.pages != [] ==>
            var last := w.pages[|w.pages| - 1];
            && (w.outcome.Fail? <==> fetch(last).Failure?)
            && (w.outcome.Fail? ==> w.outcome.error == fetch(last).error)
            && (w.outcome.Pass? ==> fetch(last).value != PageSize || last == pageEnd - 1))
      && (w.pages == [] ==> w.outcome == Pass)
    decreases pageEnd - start
  {
    if start < pageEnd && fetch(start).Success? && fetch(start).value == PageSize {
      WalkStops(start + 1, pageEnd, fetch);
      WalkPages(start + 1, pageEnd, fetch);
      var rest := Walk(start + 1, pageEnd, fetch);
      var w := Walk(start, pageEnd, fetch);
      assert w.pages == [start] + rest.pages;
      forall i | 0 <= i < |w.pages| - 1 ensures fetch(w.pages[i]) == Success(PageSize) {
        if i > 0 {
          assert w.pages[i] == rest.pages[i - 1];
        }
      }
    }
  }

  /** When every page asked for is full, the loop runs up to `pageEnd` and requests `pageEnd - start` pages. */
  lemma {:induction false} WalkToEnd(start: int, pageEnd: int, fetch: int -> Result<int>)
    requires forall p :: start <= p < pageEnd ==> fetch(p) == Success(PageSize)
    ensures start <= pageEnd ==> |Walk(start, pageEnd, fetch).pages| == pageEnd - start
    ensures Walk(start, pageEnd, fetch).outcome == Pass
    decreases pageEnd - start
  {
    if start < pageEnd {
      WalkToEnd(start + 1, pageEnd, fetch);
    }
  }
}
