/**
 * Page arithmetic shared by the tRPC list procedures: the pagination input
 * with its bounds and defaults, the row window a page requests, and the
 * page count reported with the result.
 */
module Pagination {
  import opened Common
  import opened Supabase

  const DEFAULT_PAGE := 1
  const DEFAULT_PAGE_SIZE := 20
  const MAX_PAGE_SIZE := 100

  /** The `page` and `pageSize` keys of a list input, when given. */
  datatype PageInput = PageInput(page: Option<int>, pageSize: Option<int>)

  /** A page after validation and defaulting. */
  datatype Page = Page(page: int, pageSize: int)

  /** paginationSchema: `page` at least 1, `pageSize` between 1 and 100,
    * with defaults 1 and 20; an absent input is read as `{}`. None means the
    * input is rejected. */
  function ParsePage(input: Option<PageInput>): (r: Option<Page>)
    ensures input.None? ==> r == Some(Page(DEFAULT_PAGE, DEFAULT_PAGE_SIZE))
    ensures r.Some? ==> 1 <= r.value.page && 1 <= r.value.pageSize <= MAX_PAGE_SIZE
    ensures input.Some? ==>
              (r.Some? <==> (input.value.page.None? || input.value.page.value >= 1)
                            && (input.value.pageSize.None? || 1 <= input.value.pageSize.value <= MAX_PAGE_SIZE))
    ensures r.Some? && input.Some? && input.value.page.Some? ==> r.value.page == input.value.page.value
    ensures r.Some? && input.Some? && input.value.page.None? ==> r.value.page == DEFAULT_PAGE
    ensures r.Some? && input.Some? && input.value.pageSize.Some? ==> r.value.pageSize == input.value.pageSize.value
    ensures r.Some? && input.Some? && input.value.pageSize.None? ==> r.value.pageSize == DEFAULT_PAGE_SIZE
  {
    if input.None? then Some(Page(DEFAULT_PAGE, DEFAULT_PAGE_SIZE))
    else
      var page := if input.value.page.Some? then input.value.page.value else DEFAULT_PAGE;
      var size := if input.value.pageSize.Some? then input.value.pageSize.value else DEFAULT_PAGE_SIZE;
      if page >= 1 && 1 <= size <= MAX_PAGE_SIZE then Some(Page(page, size)) else None
  }

  /** `.range((page - 1) * pageSize, page * pageSize - 1)`. */
  function PageWindow(pg: Page): Window
  {
    Window((pg.page - 1) * pg.pageSize, pg.page * pg.pageSize - 1)
  }

  /** Row offset i lies in the window of page pg. */
  predicate InWindow(i: int, w: Window)
  {
    w.first <= i <= w.last
  }

  /** A window holds exactly pageSize offsets, starting at a multiple of
    * pageSize. */
  lemma WindowSize(pg: Page)
    requires pg.page >= 1 && pg.pageSize >= 1
    ensures PageWindow(pg).last - PageWindow(pg).first + 1 == pg.pageSize
    ensures PageWindow(pg).first >= 0
  {
  }

  /** The next page starts right after this one ends. */
  lemma PagesAbut(pg: Page)
    ensures PageWindow(Page(pg.page + 1, pg.pageSize)).first == PageWindow(pg).last + 1
  {
  }

  /** Each row offset belongs to exactly one page: page `i / size + 1`. */
  lemma {:induction false} OffsetOnOnePage(i: nat, size: int, page: int)
    requires size >= 1 && page >= 1
    ensures InWindow(i, PageWindow(Page(page, size))) <==> page == i / size + 1
  {
    var q := i / size;
    var r := i % size;
    assert i == q * size + r && 0 <= r < size;
    var w := PageWindow(Page(page, size));
    assert w.first == (page - 1) * size && w.last == page * size - 1;
    if page == q + 1 {
      assert w.first == q * size;
      assert w.last == q * size + size - 1;
    } else if page <= q {
      assert (page - 1) * size + size <= q * size by {
        assert page * size <= q * size;
      }
      assert w.last < i;
    } else {
      assert page - 1 >= q + 1;
      assert (page - 1) * size >= (q + 1) * size;
      assert w.first > i;
    }
  }

  /** `count ? Math.ceil(count / pageSize) : 1`: the fewest pages that hold
    * count rows, and 1 for a count of 0 or null. */
  function TotalPages(count: Option<nat>, pageSize: int): (t: int)
    requires pageSize >= 1
    ensures t >= 1
    ensures count.Some? && count.value > 0 ==> (t - 1) * pageSize < count.value <= t * pageSize
    ensures count.None? || count.value == 0 ==> t == 1
  {
    if count.Some? && count.value != 0 then
      var c := count.value;
      var t := (c + pageSize - 1) / pageSize;
      CeilDivBounds(c, pageSize);
      t
    else 1
  }

  lemma CeilDivBounds(c: nat, size: int)
    requires c > 0 && size >= 1
    ensures var t := (c + size - 1) / size; t >= 1 && (t - 1) * size < c <= t * size
  {
    var t := (c + size - 1) / size;
    var r := (c + size - 1) % size;
    assert c + size - 1 == t * size + r && 0 <= r < size;
    assert (t - 1) * size == t * size - size;
  }

  /** The last reported page is the one holding the last row. */
  lemma LastPageHoldsLastRow(count: nat, size: int)
    requires count > 0 && size >= 1
    ensures InWindow(count - 1, PageWindow(Page(TotalPages(Some(count), size), size)))
  {
    var t := TotalPages(Some(count), size);
    assert (t - 1) * size < count <= t * size;
  }

  /** `{ data, page, pageSize, total: count, totalPages }`. */
  datatype Listing = Listing(data: seq<Json>, page: int, pageSize: int, total: Option<nat>, totalPages: int)

  /** `{ data, error, count }` of a counted select. */
  datatype ListReply = ListReply(data: seq<Json>, error: Option<DbError>, count: Option<nat>)

  /** The end of every list procedure: an error is thrown with its message,
    * otherwise the rows come back with the page, the count and the page count. */
  function ListResult(pg: Page, reply: ListReply): (r: Result<Listing>)
    requires pg.pageSize >= 1
    ensures r.Err? <==> reply.error.Some?
    ensures r.Err? ==> r.error == reply.error.value.message
    ensures r.Ok? ==> r.value.data == reply.data && r.value.page == pg.page && r.value.pageSize == pg.pageSize
                      && r.value.total == reply.count
                      && r.value.totalPages >= 1
                      && (reply.count.Some? ==> reply.count.value <= r.value.totalPages * pg.pageSize)
  {
    if reply.error.Some? then Err(reply.error.value.message)
    else Ok(Listing(reply.data, pg.page, pg.pageSize, reply.count, TotalPages(reply.count, pg.pageSize)))
  }
}
