/**
 * The apps table's use of the apps slice: which partition and page it shows,
 * when it asks for a page, and its own `page` state.
 */
module AppsTable {
  import opened Wrappers
  import opened PageCache
  import AppsSlice

  /** `paginatedPages[pageNum] || []`: the rows shown for a page. */
  function CurrentPageApps(c: Cache, page: int): (rows: seq<Record>)
    ensures page in c.pages ==> rows == c.pages[page]
    ensures page !in c.pages ==> rows == []
  {
    if page in c.pages then c.pages[page] else []
  }

  /** The fetch effect's test: `!loadedPages.includes(pageNum) && !loading`. */
  predicate ShouldFetch(c: Cache, page: int, loading: bool) {
    page !in c.loaded && !loading
  }

  /** `count={totalPages || 1}`. */
  function PaginationCount(total: int): (n: int)
    ensures total != 0 ==> n == total
    ensures total == 0 ==> n == 1
    ensures total >= 0 ==> n >= 1
  {
    if total != 0 then total else 1
  }

  /** What the table renders and requests for a given `isActive` and page. */
  datatype View = View(rows: seq<Record>, count: int, fetch: bool)

  /** Rows, page count and the fetch decision, all read from the partition `isActive` selects. */
  function ViewOf(c: Partitions, isActive: bool, page: int, loading: bool): View {
    var part := c.Of(isActive);
    View(CurrentPageApps(part, page), PaginationCount(part.total), ShouldFetch(part, page, loading))
  }

  /** The view depends on the selected partition only: the other one can be anything. */
  lemma ViewReadsOnePartition(c: Partitions, d: Partitions, isActive: bool, page: int, loading: bool)
    requires c.Of(isActive) == d.Of(isActive)
    ensures ViewOf(c, isActive, page, loading) == ViewOf(d, isActive, page, loading)
  {
  }

  /**
   * On a coherent cache the table fetches exactly the pages it has nothing
   * cached for (when no fetch is running), and shows `[]` for those.
   */
  lemma FetchIffUncached(c: Partitions, isActive: bool, page: int)
    requires c.Valid()
    ensures ViewOf(c, isActive, page, false).fetch <==> Lookup(c.Of(isActive), page).None?
    ensures ViewOf(c, isActive, page, false).fetch ==> ViewOf(c, isActive, page, false).rows == []
    ensures !ViewOf(c, isActive, page, true).fetch
  {
  }

  /**
   * Once the requested page is fulfilled, the table shows the fetched records
   * and does not ask for the page again.
   */
  lemma FulfilledPageIsServed(c: Partitions, isActive: bool, page: int, data: PageData, loading: bool)
    requires c.Valid()
    ensures ViewOf(StoreIn(c, isActive, page, data), isActive, page, loading).rows == RecordsOf(data)
    ensures !ViewOf(StoreIn(c, isActive, page, data), isActive, page, loading).fetch
    ensures ViewOf(StoreIn(c, isActive, page, data), isActive, page, loading).count == PaginationCount(TotalOf(data))
  {
    StoreSpec(c.Of(isActive), page, data);
  }

  /**
   * After an app is created every active page is requested again (once no
   * fetch is running), while the page count stays the old one; inactive
   * pages are still served from the cache.
   */
  lemma CreateForcesActiveRefetch(c: Partitions, page: int)
    requires c.Valid()
    ensures ViewOf(Partitions(Invalidate(c.active), c.inactive), true, page, false).fetch
    ensures ViewOf(Partitions(Invalidate(c.active), c.inactive), true, page, false).count == PaginationCount(c.active.total)
    ensures ViewOf(Partitions(Invalidate(c.active), c.inactive), false, page, false) == ViewOf(c, false, page, false)
  {
  }

  /**
   * After an update that moved an app out of the partition it was cached in,
   * every page of that partition is requested again; the partition it moved
   * to keeps its pages (with the app patched in place if it was there).
   */
  lemma UpdateMoveRefetchesOrigin(c: Partitions, r: Record, page: int)
    requires c.Valid() && HasId(c.Of(!r.isActive).pages, r.id)
    ensures ViewOf(AppsSlice.Reconciled(c, r), !r.isActive, page, false).fetch
    ensures ViewOf(AppsSlice.Reconciled(c, r), r.isActive, page, false).fetch == ViewOf(c, r.isActive, page, false).fetch
  {
    AppsSlice.ReconciledSpec(c, r);
    PatchKeepSpec(c.Of(r.isActive), r);
  }

  /** A request the fetch effect dispatches: `getAppsPaginated({page, isActive})`. */
  datatype Request = Request(page: int, isActive: bool)

  /** The table's local state: `page`, and the `isActive` prop it last saw. */
  class TableState {
    var page: int
    var isActive: bool

    /** First render: `useState(1)`. */
    constructor (isActive: bool)
      ensures page == 1 && this.isActive == isActive
    {
      page := 1;
      this.isActive := isActive;
    }

    /** `handlePageChange`: the page the pagination control reports. */
    method HandlePageChange(value: int)
      modifies this
      ensures page == value && isActive == old(isActive)
    {
      page := value;
    }

    /**
     * The commit that renders a new `isActive` prop. Both effects run in it,
     * in their order: the reset effect only schedules `setPage(1)`, so the
     * fetch effect still reads the page of this render, now against the new
     * partition. On a page other than 1 that the new partition has not
     * loaded, the request is for that stale page; page 1 is asked for only
     * by a later run of the fetch effect. A render with an unchanged prop
     * runs neither effect on its account.
     */
    method ActiveChanged(newIsActive: bool, c: Partitions, loading: bool) returns (req: Option<Request>)
      modifies this
      ensures isActive == newIsActive
      ensures newIsActive != old(isActive) ==> page == 1
      ensures newIsActive == old(isActive) ==> page == old(page) && req.None?
      ensures newIsActive != old(isActive) ==>
                (req.Some? <==> old(page) !in c.Of(newIsActive).loaded && !loading)
      ensures req.Some? ==> req.value == Request(old(page), newIsActive)
    {
      req := None;
      if newIsActive != isActive {
        isActive := newIsActive;
        req := FetchEffect(c, loading);
        page := 1;
      }
    }

    /**
     * The fetch effect: dispatch a request for the current page and partition
     * exactly when the page is not loaded there and no fetch is running.
     */
    method FetchEffect(c: Partitions, loading: bool) returns (req: Option<Request>)
      ensures req.Some? <==> page !in c.Of(isActive).loaded && !loading
      ensures req.Some? ==> req.value == Request(page, isActive)
    {
      var loaded := if isActive then c.active.loaded else c.inactive.loaded;
      if page !in loaded && !loading {
        req := Some(Request(page, isActive));
      } else {
        req := None;
      }
    }
  }

  /**
   * A concrete trace of the stale request: the table sits on page 3 of the
   * active apps when the tab switches to the inactive ones, none of which is
   * loaded; the commit asks for inactive page 3, not page 1, and leaves the
   * table on page 1.
   */
  method StalePageRequest() returns (req: Option<Request>, page: int)
    ensures req == Some(Request(3, false)) && page == 1
  {
    var t := new TableState(true);
    t.HandlePageChange(3);
    req := t.ActiveChanged(false, Partitions(Empty(), Empty()), false);
    page := t.page;
  }
}
