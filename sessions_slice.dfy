/**
 * The sessions slice: the `sessions` reference list and a single page cache;
 * sessions are deleted rather than updated.
 */
module SessionsSlice {
  import opened Wrappers
  import opened PageCache
  import ThunkErrors

  /** The body text the delete endpoint answers with on success. */
  const DeletedMsg: string := "session deleted permanently"

  /**
   * The delete action's success test: it resolves with `{id}` only when the
   * response body's `msg` is exactly the confirmation text, and with no
   * payload otherwise (it does not reject).
   */
  function ConfirmDelete(id: int, msg: Option<string>): (r: Option<int>)
    ensures r.Some? <==> msg == Some(DeletedMsg)
    ensures r.Some? ==> r.value == id
  {
    if msg == Some(DeletedMsg) then Some(id) else None
  }

  /**
   * What `getSessions` and `getSessionsPaginated` reject with: both fallbacks
   * are "Getting sessions failed"; an answered failure always leaves a message.
   */
  function FetchRejection(f: ThunkErrors.Failure): (r: ThunkErrors.Rejection)
    ensures r.payload.None? <==> f.NoResponse?
    ensures r.payload.Some? ==> r.payload.value != "" && r.notice == r.payload
  {
    ThunkErrors.Reject(f, "Getting sessions failed", "Getting sessions failed")
  }

  /** What `deleteSession` rejects with: "Signup failed" for an empty join, else "Something went wrong". */
  function DeleteRejection(f: ThunkErrors.Failure): (r: ThunkErrors.Rejection)
    ensures r.payload.None? <==> f.NoResponse?
    ensures r.payload.Some? ==> r.payload.value != "" && r.notice == r.payload
  {
    ThunkErrors.Reject(f, "Signup failed", "Something went wrong")
  }

  /** Some cached page is non-empty, so a `filter` over it calls its callback. */
  predicate SomePageNonEmpty(pages: Pages) {
    exists p :: p in pages && |pages[p]| > 0
  }

  /**
   * Whether the fulfilled reducer, as written, throws: with no payload,
   * `action.payload.id` is read as soon as a `filter` callback runs, that is
   * when the loaded reference list or some cached page is non-empty.
   */
  predicate DeleteThrows(sessions: RefList, pages: Pages, payload: Option<int>) {
    payload.None? && ((sessions.Loaded? && |sessions.items| > 0) || SomePageNonEmpty(pages))
  }

  /** The slice state; each method is one reducer case. */
  class SessionsState {
    var sessions: RefList
    var paginatedPages: Pages
    var totalPages: int
    var loadedPages: seq<int>
    var loading: bool
    var loadingRowId: Option<int>
    var error: Option<string>

    ghost function Cached(): Cache
      reads this
    {
      Cache(paginatedPages, loadedPages, totalPages)
    }

    ghost predicate Valid()
      reads this
    {
      Cached().Valid()
    }

    /** `initialState`. */
    constructor ()
      ensures Valid() && sessions == Unloaded && Cached() == Empty()
      ensures !loading && loadingRowId.None? && error.None?
    {
      sessions := Unloaded;
      paginatedPages := map[];
      totalPages := 0;
      loadedPages := [];
      loading := false;
      loadingRowId := None;
      error := None;
    }

    /** `clearPaginatedCache`: pages, loaded list and total reset. */
    method ClearPaginatedCache()
      requires Valid()
      modifies this
      ensures Valid() && Cached() == Empty()
      ensures sessions == old(sessions) && loading == old(loading)
      ensures loadingRowId == old(loadingRowId) && error == old(error)
    {
      paginatedPages := map[];
      loadedPages := [];
      totalPages := 0;
    }

    /** `getSessions.fulfilled`: the reference list replaced by the server's list. */
    method GetSessionsFulfilled(items: seq<Record>)
      requires Valid()
      modifies this
      ensures Valid() && sessions == Loaded(items) && !loading
      ensures Cached() == old(Cached()) && loadingRowId == old(loadingRowId) && error == old(error)
    {
      sessions := Loaded(items);
      loading := false;
    }

    /** `getSessionsPaginated.pending`. */
    method FetchPending()
      requires Valid()
      modifies this
      ensures Valid() && loading && error.None?
      ensures Cached() == old(Cached()) && sessions == old(sessions) && loadingRowId == old(loadingRowId)
    {
      loading := true;
      error := None;
    }

    /** `getSessionsPaginated.fulfilled`: page stored, added once to the loaded list, total overwritten. */
    method GetSessionsPaginatedFulfilled(page: int, data: PageData)
      requires Valid()
      modifies this
      ensures Valid() && Cached() == Store(old(Cached()), page, data)
      ensures !loading && sessions == old(sessions) && loadingRowId == old(loadingRowId) && error == old(error)
    {
      StoreSpec(Cached(), page, data);
      paginatedPages := paginatedPages[page := RecordsOf(data)];
      if page !in loadedPages {
        loadedPages := loadedPages + [page];
      }
      totalPages := TotalOf(data);
      loading := false;
    }

    /** `getSessionsPaginated.rejected`: the cache untouched. */
    method FetchRejected(f: ThunkErrors.Failure)
      requires Valid()
      modifies this
      ensures Valid() && !loading && error == FetchRejection(f).payload
      ensures Cached() == old(Cached()) && sessions == old(sessions) && loadingRowId == old(loadingRowId)
    {
      loading := false;
      error := FetchRejection(f).payload;
    }

    /** `deleteSession.pending`: the row being deleted is marked. */
    method DeleteSessionPending(id: int)
      requires Valid()
      modifies this
      ensures Valid() && loadingRowId == Some(id) && error.None?
      ensures Cached() == old(Cached()) && sessions == old(sessions) && loading == old(loading)
    {
      loadingRowId := Some(id);
      error := None;
    }

    /**
     * `deleteSession.fulfilled` as written: with a payload, the id is filtered
     * out of the reference list (unless still the sentinel) and out of every
     * cached page; without one, the reducer throws whenever a filter callback
     * runs, and the store keeps its previous state, row mark included.
     */
    method DeleteSessionFulfilledAsWritten(payload: Option<int>) returns (threw: bool)
      requires Valid()
      modifies this
      ensures Valid()
      ensures threw <==> DeleteThrows(old(sessions), old(paginatedPages), payload)
      ensures threw ==> Cached() == old(Cached()) && sessions == old(sessions) && loadingRowId == old(loadingRowId)
      ensures !threw ==> loadingRowId.None?
      ensures !threw && payload.Some? ==>
                Cached() == Filter(old(Cached()), payload.value) && sessions == RefFiltered(old(sessions), payload.value)
      ensures !threw && payload.None? ==> Cached() == old(Cached()) && sessions == old(sessions)
      ensures loading == old(loading) && error == old(error)
    {
      threw := DeleteThrows(sessions, paginatedPages, payload);
      if threw {
        return;
      }
      loadingRowId := None;
      if payload.Some? {
        var id := payload.value;
        if sessions.Loaded? {
          sessions := Loaded(RemoveId(sessions.items, id));
        }
        var pages := FilterPages(paginatedPages, loadedPages, id);
        paginatedPages := pages;
        FilterSpec(old(Cached()), id);
      }
    }

    /**
     * `deleteSession.fulfilled`, corrected: an unconfirmed delete (no payload)
     * clears the row mark and leaves the cache alone; a confirmed one removes
     * the id from the reference list and from every cached page, keeping the
     * page numbers and the loaded list.
     */
    method DeleteSessionFulfilled(payload: Option<int>)
      requires Valid()
      modifies this
      ensures Valid() && loadingRowId.None?
      ensures payload.Some? ==> Cached() == Filter(old(Cached()), payload.value)
                                && sessions == RefFiltered(old(sessions), payload.value)
      ensures payload.None? ==> Cached() == old(Cached()) && sessions == old(sessions)
      ensures loading == old(loading) && error == old(error)
    {
      loadingRowId := None;
      if payload.Some? {
        var id := payload.value;
        if sessions.Loaded? {
          sessions := Loaded(RemoveId(sessions.items, id));
        }
        var pages := FilterPages(paginatedPages, loadedPages, id);
        paginatedPages := pages;
        FilterSpec(old(Cached()), id);
      }
    }

    /** `deleteSession.rejected`: the row mark cleared, the cache untouched. */
    method DeleteSessionRejected(f: ThunkErrors.Failure)
      requires Valid()
      modifies this
      ensures Valid() && loadingRowId.None? && error == DeleteRejection(f).payload
      ensures Cached() == old(Cached()) && sessions == old(sessions) && loading == old(loading)
    {
      loadingRowId := None;
      error := DeleteRejection(f).payload;
    }
  }

  /**
   * A delete the server answers with another body, on a cache holding one
   * session: as written the fulfilled reducer throws and the row stays marked
   * as loading.
   */
  method UnconfirmedDeleteAsWritten() returns (threw: bool, mark: Option<int>)
    ensures threw && mark == Some(7)
  {
    var s := new SessionsState();
    s.GetSessionsPaginatedFulfilled(1, PageData(Some([Record(7, true, "")]), Some(1)));
    s.DeleteSessionPending(7);
    var outcome := ConfirmDelete(7, Some("ok"));
    threw := s.DeleteSessionFulfilledAsWritten(outcome);
    mark := s.loadingRowId;
  }

  /** The same sequence with the corrected reducer: the row mark is cleared and the page kept. */
  method UnconfirmedDeleteCorrected() returns (mark: Option<int>, page: Option<seq<Record>>)
    ensures mark.None? && page == Some([Record(7, true, "")])
  {
    var s := new SessionsState();
    s.GetSessionsPaginatedFulfilled(1, PageData(Some([Record(7, true, "")]), Some(1)));
    s.DeleteSessionPending(7);
    var outcome := ConfirmDelete(7, Some("ok"));
    s.DeleteSessionFulfilled(outcome);
    mark := s.loadingRowId;
    page := if 1 in s.paginatedPages then Some(s.paginatedPages[1]) else None;
  }
}
